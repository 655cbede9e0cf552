/**
 * The `WeatherAPI` class of wx.py. Its `_params` dict is an object of its
 * own, so that a call without a station override can hand out that very
 * dict and a history call can write `date` into it.
 */
module Client {
  import opened Wrappers
  import opened Json
  import opened Calendar
  import opened Normalize
  import opened Params
  import opened History

  /** The `Units` codes sent as the `units` parameter. */
  const Imperial := "e"
  const English := "e"
  const Metric := "m"
  const Hybrid := "h"
  const UK := "h"

  /** A Python dict holding one record. */
  class Dict {
    var entries: Record

    constructor (entries: Record)
      ensures this.entries == entries
    {
      this.entries := entries;
    }
  }

  /** A Python dict holding query parameters. */
  class ParamDict {
    var entries: ParamMap

    constructor (entries: ParamMap)
      ensures this.entries == entries
    {
      this.entries := entries;
    }
  }

  class WeatherAPI {
    /** `self._params`: bound once, its contents mutable. */
    const params: ParamDict

    /** `__init__`, with the environment passed in; its defaults are None, None and `Imperial`. */
    constructor (env: Environment, apiKey: Option<string> := None, station: Option<string> := None, units: string := Imperial)
      ensures fresh(params)
      ensures params.entries == InitialParams(apiKey, station, units, env)
    {
      params := new ParamDict(InitialParams(apiKey, station, units, env));
    }

    /**
     * `_transform`: rewrites the record in place and returns the same
     * object; `dict.update` raising leaves the record as it was.
     */
    method Transform(record: Dict) returns (outcome: Result<Dict, Failure>)
      modifies record
      ensures outcome.Ok? ==> outcome.value == record && Flattened(old(record.entries)) == Ok(record.entries)
      ensures outcome.Err? ==> Flattened(old(record.entries)) == Err(outcome.error) && record.entries == old(record.entries)
    {
      for i := 0 to |Reserved|
        invariant forall j :: 0 <= j < i ==> Reserved[j] !in record.entries
        invariant record.entries == old(record.entries)
      {
        var attr := Reserved[i];
        if attr in record.entries {
          var nested := record.entries[attr];
          if !nested.Obj? {
            return Err(NotAMapping(attr));
          }
          record.entries := record.entries + nested.fields;
          record.entries := record.entries - {attr};
          break;
        }
      }
      return Ok(record);
    }

    /**
     * `self._params | {"stationId": station} if station else self._params`:
     * a fresh dict with the station replaced, or `_params` itself.
     */
    method EffectiveParams(station: Option<string>) returns (p: ParamDict)
      ensures Truthy(station) ==> fresh(p) && p.entries == Override(params.entries, station)
      ensures !Truthy(station) ==> p == params
    {
      if Truthy(station) {
        p := new ParamDict(params.entries + map["stationId" := station]);
      } else {
        p := params;
      }
    }

    /** `current`: the sole observation, normalized; `_params` is not changed. */
    method Current(station: Option<string>, transport: Transport) returns (r: Result<Record, Failure>)
      ensures r == CurrentResult(Fetch(transport, CurrentObservations, Override(params.entries, station)))
    {
      var p := EffectiveParams(station);
      r := CurrentResult(Fetch(transport, CurrentObservations, p.entries));
    }

    /** `dailysummary`: the seven summaries, normalized. */
    method DailySummary(station: Option<string>, transport: Transport) returns (r: Result<seq<Record>, Failure>)
      ensures r == ListResult(Fetch(transport, DailySummary7Day, Override(params.entries, station)))
    {
      var p := EffectiveParams(station);
      r := ListResult(Fetch(transport, DailySummary7Day, p.entries));
    }

    /** `observations_1day_highres`: the day's rapid observations, normalized. */
    method Observations1DayHighres(station: Option<string>, transport: Transport) returns (r: Result<seq<Record>, Failure>)
      ensures r == ListResult(Fetch(transport, AllObservations1Day, Override(params.entries, station)))
    {
      var p := EffectiveParams(station);
      r := ListResult(Fetch(transport, AllObservations1Day, p.entries));
    }

    /** `observations_7day_hourly`: the week's hourly observations, normalized. */
    method Observations7DayHourly(station: Option<string>, transport: Transport) returns (r: Result<seq<Record>, Failure>)
      ensures r == ListResult(Fetch(transport, HourlyObservations7Day, Override(params.entries, station)))
    {
      var p := EffectiveParams(station);
      r := ListResult(Fetch(transport, HourlyObservations7Day, p.entries));
    }

    /**
     * `history_daily`: sends the effective parameters with `date` set,
     * and that write lands in `_params` itself when no station is given.
     */
    method HistoryDaily(date: DateArg, station: Option<string>, transport: Transport) returns (r: Result<Option<Record>, Failure>)
      modifies params
      ensures ResolveDate(date).Err? ==> r == Err(ResolveDate(date).error) && params.entries == old(params.entries)
      ensures ResolveDate(date).Ok? ==>
        var d := ResolveDate(date).value;
        && r == HistoryDailyResult(Fetch(transport, DailyHistory, SentParams(old(params.entries), station, d)))
        && params.entries == AfterLookups(old(params.entries), station, Some(d))
    {
      var resolved := ResolveDate(date);
      if resolved.Err? {
        return Err(resolved.error);
      }
      var p := EffectiveParams(station);
      p.entries := p.entries["date" := Some(BasicDate(resolved.value))];
      r := HistoryDailyResult(Fetch(transport, DailyHistory, p.entries));
    }

    /** `history_hourly`: like `history_daily`, returning the whole day, normalized. */
    method HistoryHourly(date: DateArg, station: Option<string>, transport: Transport) returns (r: Result<seq<Record>, Failure>)
      modifies params
      ensures ResolveDate(date).Err? ==> r == Err(ResolveDate(date).error) && params.entries == old(params.entries)
      ensures ResolveDate(date).Ok? ==>
        var d := ResolveDate(date).value;
        && r == ListResult(Fetch(transport, HourlyHistory, SentParams(old(params.entries), station, d)))
        && params.entries == AfterLookups(old(params.entries), station, Some(d))
    {
      var resolved := ResolveDate(date);
      if resolved.Err? {
        return Err(resolved.error);
      }
      var p := EffectiveParams(station);
      p.entries := p.entries["date" := Some(BasicDate(resolved.value))];
      r := ListResult(Fetch(transport, HourlyHistory, p.entries));
    }

    /**
     * `history_daily_range`, drained: the records it yields, why it
     * stopped, and the `date` its lookups leave in `_params`.
     */
    method HistoryDailyRange(start: Option<Day>, end: Option<Day>, station: Option<string>, today: Day, transport: Transport)
      returns (records: seq<Record>, stop: Stop)
      modifies params
      ensures var run := Range(Daily, transport, old(params.entries), station, start, end, today);
        && records == Yielded(Daily, run.batches)
        && stop == run.stop
        && params.entries == AfterLookups(old(params.entries), station, run.lastDay)
    {
      ghost var base := params.entries;
      ghost var lookup := DayLookup(Daily, transport, base, station);
      records := [];
      var setup := RangeSetup(start, end, today);
      if setup.Err? {
        return [], Raised(setup.error);
      }
      var current, bound := setup.value.0, setup.value.1;
      ghost var batches: seq<seq<Record>> := [];
      ghost var last: Option<Day> := None;
      ghost var run := Range(Daily, transport, base, station, start, end, today);
      assert run == Walk(lookup, current, bound);
      assert Resume(batches, last, Walk(lookup, current, bound)) == Walk(lookup, current, bound);
      while bound.None? || !Before(current, bound.value)
        invariant run == Resume(batches, last, Walk(lookup, current, bound))
        invariant records == Yielded(Daily, batches)
        invariant params.entries == AfterLookups(base, station, last)
        decreases current.year, current.month, current.day
      {
        StaleDateIsOverwritten(base, station, last, current);
        LaterLookupOverwritesDate(base, station, last, current);
        var result := HistoryDaily(OnDate(current), station, transport);
        assert lookup(current) == DayBatch(Daily, transport, base, station, current);
        ResumeStep(batches, last, lookup, current, bound);
        if result.Err? {
          return records, Raised(result.error);
        }
        if result.value.None? || result.value.value == map[] {
          return records, NoMoreData;
        }
        var record := result.value.value;
        YieldedAppend(Daily, batches, [record]);
        records := records + [record];
        batches := batches + [[record]];
        last := Some(current);
        var previous := PrevDay(current);
        if previous.None? {
          return records, Raised(DateOverflow);
        }
        current := previous.value;
      }
      ResumePastEnd(batches, last, lookup, current, bound.value);
      stop := PastEnd;
    }

    /**
     * `history_hourly_range`, drained: each day's records, latest hour
     * first, why it stopped, and the `date` left in `_params`.
     */
    method HistoryHourlyRange(start: Option<Day>, end: Option<Day>, station: Option<string>, today: Day, transport: Transport)
      returns (records: seq<Record>, stop: Stop)
      modifies params
      ensures var run := Range(Hourly, transport, old(params.entries), station, start, end, today);
        && records == Yielded(Hourly, run.batches)
        && stop == run.stop
        && params.entries == AfterLookups(old(params.entries), station, run.lastDay)
    {
      ghost var base := params.entries;
      ghost var lookup := DayLookup(Hourly, transport, base, station);
      records := [];
      var setup := RangeSetup(start, end, today);
      if setup.Err? {
        return [], Raised(setup.error);
      }
      var current, bound := setup.value.0, setup.value.1;
      ghost var batches: seq<seq<Record>> := [];
      ghost var last: Option<Day> := None;
      ghost var run := Range(Hourly, transport, base, station, start, end, today);
      assert run == Walk(lookup, current, bound);
      assert Resume(batches, last, Walk(lookup, current, bound)) == Walk(lookup, current, bound);
      while bound.None? || !Before(current, bound.value)
        invariant run == Resume(batches, last, Walk(lookup, current, bound))
        invariant records == Yielded(Hourly, batches)
        invariant params.entries == AfterLookups(base, station, last)
        decreases current.year, current.month, current.day
      {
        StaleDateIsOverwritten(base, station, last, current);
        LaterLookupOverwritesDate(base, station, last, current);
        var results := HistoryHourly(OnDate(current), station, transport);
        assert lookup(current) == DayBatch(Hourly, transport, base, station, current);
        ResumeStep(batches, last, lookup, current, bound);
        if results.Err? {
          return records, Raised(results.error);
        }
        if results.value == [] {
          return records, NoMoreData;
        }
        YieldedAppend(Hourly, batches, results.value);
        records := records + Reverse(results.value);
        batches := batches + [results.value];
        last := Some(current);
        var previous := PrevDay(current);
        if previous.None? {
          return records, Raised(DateOverflow);
        }
        current := previous.value;
      }
      ResumePastEnd(batches, last, lookup, current, bound.value);
      stop := PastEnd;
    }
  }
}
