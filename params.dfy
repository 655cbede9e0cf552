/**
 * Query parameters of wx.py's `WeatherAPI`: the per-instance defaults
 * built by `__init__`, the per-call station override
 * `self._params | {"stationId": station} if station else self._params`,
 * and the `date` entry the history calls write.
 */
module Params {
  import opened Wrappers
  import opened Calendar

  /** A parameter dict; `None` is Python's None (requests leaves such parameters out). */
  type ParamMap = map<string, Option<string>>

  /** Python truthiness of an optional string: neither None nor empty. */
  predicate Truthy(s: Option<string>) {
    s.Some? && s.value != ""
  }

  /** The values of the `WX_API_KEY` and `WX_STATION` environment variables. */
  datatype Environment = Environment(apiKey: Option<string>, station: Option<string>)

  const ParamKeys: set<string> := {"apiKey", "stationId", "units", "format", "numericPrecision"}

  /** The `_params` dict `__init__` builds; `x or env` keeps `x` only when it is truthy. */
  function InitialParams(apiKey: Option<string>, station: Option<string>, units: string, env: Environment): (p: ParamMap)
    ensures p.Keys == ParamKeys
    ensures p["units"] == Some(units) && p["format"] == Some("json") && p["numericPrecision"] == Some("decimal")
  {
    map[
      "apiKey" := if Truthy(apiKey) then apiKey else env.apiKey,
      "stationId" := if Truthy(station) then station else env.station,
      "units" := Some(units),
      "format" := Some("json"),
      "numericPrecision" := Some("decimal")
    ]
  }

  /** An explicit, non-empty argument wins over the environment; otherwise the environment value is used. */
  lemma ExplicitArgumentWins(apiKey: Option<string>, station: Option<string>, units: string, env: Environment)
    ensures var p := InitialParams(apiKey, station, units, env);
      && (Truthy(apiKey) ==> p["apiKey"] == apiKey)
      && (!Truthy(apiKey) ==> p["apiKey"] == env.apiKey)
      && (Truthy(station) ==> p["stationId"] == station)
      && (!Truthy(station) ==> p["stationId"] == env.station)
  {
  }

  /** The effective parameters of one call, as a value. */
  function Override(base: ParamMap, station: Option<string>): (p: ParamMap)
    ensures Truthy(station) ==> p.Keys == base.Keys + {"stationId"} && p["stationId"] == station
    ensures Truthy(station) ==> forall k :: k in base && k != "stationId" ==> p[k] == base[k]
    ensures !Truthy(station) ==> p == base
  {
    if Truthy(station) then base + map["stationId" := station] else base
  }

  /** The parameters sent by a history call for day `d`. */
  function SentParams(base: ParamMap, station: Option<string>, d: Day): (p: ParamMap)
    ensures p.Keys == Override(base, station).Keys + {"date"}
    ensures p["date"] == Some(BasicDate(d))
    ensures forall k :: k in Override(base, station) && k != "date" ==> p[k] == Override(base, station)[k]
  {
    Override(base, station)["date" := Some(BasicDate(d))]
  }

  /**
   * The instance's `_params` after history lookups whose last day was
   * `last`: with no station override the lookups wrote `date` into
   * `_params` itself; with one they wrote into a copy.
   */
  function AfterLookups(base: ParamMap, station: Option<string>, last: Option<Day>): (p: ParamMap)
    ensures Truthy(station) || last.None? ==> p == base
    ensures !Truthy(station) && last.Some? ==>
      && p.Keys == base.Keys + {"date"}
      && p["date"] == Some(BasicDate(last.value))
      && forall k :: k in base && k != "date" ==> p[k] == base[k]
  {
    if Truthy(station) || last.None? then base else base["date" := Some(BasicDate(last.value))]
  }

  /** A date left in `_params` by an earlier lookup does not change what the next lookup sends. */
  lemma StaleDateIsOverwritten(base: ParamMap, station: Option<string>, last: Option<Day>, d: Day)
    ensures SentParams(AfterLookups(base, station, last), station, d) == SentParams(base, station, d)
  {
    if !Truthy(station) && last.Some? {
      var stale := base["date" := Some(BasicDate(last.value))];
      assert stale["date" := Some(BasicDate(d))] == base["date" := Some(BasicDate(d))];
    }
  }

  /** Each lookup's `date` write replaces the previous one. */
  lemma LaterLookupOverwritesDate(base: ParamMap, station: Option<string>, last: Option<Day>, d: Day)
    ensures AfterLookups(AfterLookups(base, station, last), station, Some(d)) == AfterLookups(base, station, Some(d))
  {
    if !Truthy(station) && last.Some? {
      var stale := base["date" := Some(BasicDate(last.value))];
      assert stale["date" := Some(BasicDate(d))] == base["date" := Some(BasicDate(d))];
    }
  }

  /**
   * After a history lookup made without a station, every later call sends
   * that lookup's `date`, whatever station it names.
   */
  lemma DateLeaksIntoLaterCalls(base: ParamMap, noStation: Option<string>, d: Day, station: Option<string>)
    requires !Truthy(noStation)
    ensures "date" in Override(AfterLookups(base, noStation, Some(d)), station)
    ensures Override(AfterLookups(base, noStation, Some(d)), station)["date"] == Some(BasicDate(d))
  {
  }

  /** With a station override the instance defaults are untouched by any number of lookups. */
  lemma OverrideKeepsDefaults(base: ParamMap, station: Option<string>, last: Option<Day>)
    requires Truthy(station)
    ensures AfterLookups(base, station, last) == base
  {
  }

  /** `current(station="KXYZ")` replaces the station and keeps the key and units. */
  lemma OverrideExample(key: string, station: string, units: string, env: Environment)
    ensures var p := Override(InitialParams(Some(key), Some(station), units, env), Some("KXYZ"));
      && p["stationId"] == Some("KXYZ")
      && p["apiKey"] == (if key != "" then Some(key) else env.apiKey)
      && p["units"] == Some(units)
  {
  }
}
