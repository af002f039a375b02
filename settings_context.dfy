/**
 * The dashboard settings context: the settings object, its defaults, the
 * `updateSettings` merge and the `useSettings` guard. The saved copy in local
 * storage is an input (`None` when missing or empty); JSON encoding of the
 * saved copy is not modelled, so what is saved is read back as it was.
 */
module SettingsContext {
  import opened Wrappers

  /** A JSON value of a settings entry. */
  datatype Value = Bool(b: bool) | Num(n: real) | Text(s: string)

  type Settings = map<string, Value>

  /** The settings used when nothing is saved. */
  const Defaults: Settings := map[
    "darkMode" := Bool(false),
    "notifications" := Bool(true),
    "themeStyle" := Text("default"),
    "refreshRate" := Num(5.0),
    "showVoltage" := Bool(true),
    "showCurrent" := Bool(true),
    "showPower" := Bool(true),
    "showCost" := Bool(true),
    "kwhRate" := Num(0.12)
  ]

  /** The four chart series. */
  const ChartToggles: seq<string> := ["showVoltage", "showCurrent", "showPower", "showCost"]

  /** The defaults list nine keys: every chart series shown, 5 s refresh, 0.12 per kWh, light theme. */
  lemma DefaultsListed()
    ensures Defaults.Keys == {"darkMode", "notifications", "themeStyle", "refreshRate", "showVoltage",
                              "showCurrent", "showPower", "showCost", "kwhRate"}
    ensures forall k :: k in ChartToggles ==> k in Defaults && Defaults[k] == Bool(true)
    ensures Defaults["refreshRate"] == Num(5.0) && Defaults["kwhRate"] == Num(0.12)
    ensures Defaults["darkMode"] == Bool(false) && Defaults["notifications"] == Bool(true)
    ensures Defaults["themeStyle"] == Text("default")
  {
  }

  /** The lazy initial state: the saved object when there is one, else the defaults. */
  function InitialSettings(saved: Option<Settings>): (s: Settings)
    ensures saved.None? ==> s == Defaults
    ensures saved.Some? ==> s == saved.value
  {
    saved.GetOr(Defaults)
  }

  /** `{ ...prev, ...update }`. */
  function Merge(prev: Settings, update: Settings): (r: Settings)
    ensures r.Keys == prev.Keys + update.Keys
    ensures forall k :: k in update ==> r[k] == update[k]
    ensures forall k :: k in prev && k !in update ==> r[k] == prev[k]
  {
    prev + update
  }

  /** What `useSettings` gives a component: the context, or the error it throws. */
  datatype Hook = Provided(settings: Settings) | Thrown(message: string)

  /** `useSettings`; `context` is `None` outside a provider. */
  function UseSettings(context: Option<Settings>): (h: Hook)
    ensures h.Thrown? <==> context.None?
    ensures h.Thrown? ==> h.message == "useSettings must be used within a SettingsProvider"
    ensures h.Provided? ==> h.settings == context.value
  {
    match context
    case None => Thrown("useSettings must be used within a SettingsProvider")
    case Some(s) => Provided(s)
  }

  class SettingsProvider {
    var settings: Settings
    /** The `dashboardSettings` entry of local storage, rewritten by the effect after every change. */
    var stored: Settings

    constructor (saved: Option<Settings>)
      ensures settings == InitialSettings(saved) && stored == settings
    {
      settings := InitialSettings(saved);
      stored := InitialSettings(saved);
    }

    /** `updateSettings` followed by the saving effect. */
    method UpdateSettings(update: Settings)
      modifies this
      ensures settings == Merge(old(settings), update)
      ensures stored == settings
    {
      settings := settings + update;
      stored := settings;
    }
  }

  /** Applying the same update twice equals applying it once. */
  lemma MergeIdempotent(prev: Settings, update: Settings)
    ensures Merge(Merge(prev, update), update) == Merge(prev, update)
  {
  }

  /** An empty update changes nothing. */
  lemma MergeEmptyIsIdentity(prev: Settings)
    ensures Merge(prev, map[]) == prev
  {
  }

  /** Two updates in a row equal one update with their merge. */
  lemma MergeTwice(prev: Settings, u: Settings, v: Settings)
    ensures Merge(Merge(prev, u), v) == Merge(prev, Merge(u, v))
  {
  }

  /** Updating only `kwhRate` keeps every other default. */
  lemma RateUpdateKeepsOthers(r: real)
    ensures var s := Merge(Defaults, map["kwhRate" := Num(r)]);
            s.Keys == Defaults.Keys && s["kwhRate"] == Num(r) &&
            forall k :: k in Defaults && k != "kwhRate" ==> s[k] == Defaults[k]
  {
  }

  /** A provider opened from what another provider saved starts with that provider's settings. */
  lemma ReloadRestores(s: Settings)
    ensures InitialSettings(Some(s)) == s
  {
  }
}
