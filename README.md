# py-weather client core, modelled in Dafny

This project models the deterministic core of `wx.py`, a client for The
Weather Company's Personal Weather Station (PWS) API, and proves
properties of it. The HTTP exchange is abstracted as a function
parameter. What stays is:

- the record normalizer `WeatherAPI._transform`. It looks for `imperial`,
  `metric`, `uk_hybrid` in that order. The first one found has its nested
  object merged into the record, then it is deleted, in place.
- the request parameters. `__init__` builds the `_params` defaults. Each
  endpoint applies the station override
  `self._params | {"stationId": station} if station else self._params`,
  which hands out `_params` itself when there is no station. The history
  calls then write `date` (basic ISO 8601 form `YYYYMMDD`) into whichever
  dict they got.
- the single-day history lookups `history_daily` and `history_hourly`,
  and the other endpoints minus their GET.
- the range generators `history_daily_range` and `history_hourly_range`.
  They set up the range (default start today, swap when `start < end`,
  error when `end` is None), then walk back one day at a time.

Modules, one per component:

- `Wrappers`: `Option`, `Result`.
- `Json`: decoded values, records and the failures the code raises.
- `Calendar`: Python dates, the previous day, and the `YYYYMMDD` form.
- `Normalize`: `_transform` as a function, with its properties.
- `Params`: `_params` and the override and `date` write, as values.
- `History`: endpoint results, range setup, and the backward walk with its lemmas.
- `Client`: the `WeatherAPI` class. It holds `_params` as a `ParamDict`
  object, so aliasing is visible.

Modelling choices:

- Dates are Python `date` values: a valid (year, month, day) in years
  1..9999. The order is lexicographic, as Python compares dates.
  `current -= timedelta(days=1)` is `Calendar.PrevDay`. It has no result
  at 0001-01-01, where Python raises `OverflowError`. So even a walk with
  no `end` is finite, and the walk is a total function.
- Each range generator is a `while` loop in a method that drains the
  generator. The method returns the yielded records and why it stopped.
  It is proved equal to the specification `History.Range`, which also
  gives the `date` the lookups leave in `_params`.
- The daily and hourly generators share the walk `History.Walk` over
  per-day batches. A daily batch is `[record]`, or `[]` for what
  `not result` treats as falsy (None or an empty record).
- The GET, `raise_for_status`, `response.json()` and the unwrapping of
  the `observations`/`summaries` key are one parameter,
  `Transport = (Endpoint, params) -> Result<records, message>`.
  The environment variables are passed in as an `Environment`. Today's
  date is a parameter.

Behaviour of wx.py worth noting:

- Normalizing is idempotent for records with at most one reserved key,
  whose nested object holds no reserved key
  (`Normalize.FlattenedIdempotent`), and not in general: a second
  reserved key survives the first pass
  (`Normalize.FlattenedNotIdempotentInGeneral`).
- A later reserved key is kept, not removed.
- History calls without a station write `date` into the instance
  defaults. Every later non-history call then sends that date, until the
  next history call overwrites it (`Params.DateLeaksIntoLaterCalls`,
  `Params.StaleDateIsOverwritten`). The defaults are therefore not
  read-only.

## Model

| member | source | states |
|---|---|---|
| Calendar.BeforeIsStrictTotalOrder | wx.py:144-147 | date `<` is irreflexive, asymmetric, transitive and total |
| Calendar.StripDashes | wx.py:130 | `replace("-", "")` leaves no dash and keeps exactly the other characters |
| Calendar.PrevDay | wx.py:152 | stepping back a day gives an earlier date, and fails exactly at 0001-01-01 |
| Calendar.PrevDayIsImmediate | wx.py:147-152 | a date is before `d` exactly when it is at or before `d`'s previous day: stepping back skips no day |
| Calendar.BackDescends | wx.py:146-152 | days reached by stepping back further are strictly earlier |
| Calendar.BasicDate | wx.py:132 | `strftime("%Y%m%d")` gives eight digits |
| Calendar.DigitsRoundTrip | wx.py:132 | a number written zero-padded to its width reads back as the number |
| Calendar.ParseBasicDate | wx.py:130 | text is accepted only when it is the `YYYYMMDD` form of the date returned |
| Calendar.BasicDateRoundTrip | wx.py:130-132 | the written form of every date is read back as that date |
| Calendar.ExtendedDateStripsToBasic | wx.py:130 | removing the dashes from `YYYY-MM-DD` gives `YYYYMMDD` |
| Normalize.Flattened | wx.py:58-67 | no reserved key: the record as is; otherwise fails exactly when the first reserved key holds no object, and on success that key is gone and every other key is kept |
| Normalize.FirstReserved | wx.py:60-61 | the index of the first of `imperial`, `metric`, `uk_hybrid` present, or none when none is |
| Normalize.FlattenedFirstMatchWins | wx.py:60-64 | only the first reserved key present is merged: nested entries overwrite, that key is removed, every other key keeps its value, later reserved keys survive |
| Normalize.FlattenedNoReservedKey | wx.py:60-67 | a record without a reserved key is returned unchanged |
| Normalize.FlattenedFails | wx.py:62 | normalizing raises exactly when the first reserved key present does not hold an object |
| Normalize.FlattenedKeepsUnrelatedKeys | wx.py:60-67 | a non-reserved key in no nested object keeps its value whichever key matched |
| Normalize.FlattenedIdempotent | wx.py:60-64 | with at most one reserved key, holding an object without reserved keys, normalizing twice equals once |
| Normalize.FlattenedNotIdempotentInGeneral | wx.py:60-64 | some record normalizes differently the second time |
| Normalize.FlattenedImperialExample | wx.py:58-67 | `{obsTimeUtc, imperial: {temp: 72}}` becomes `{obsTimeUtc, temp: 72}` |
| Normalize.FlattenAll | wx.py:93 | the list comprehension succeeds exactly when every record normalizes, keeping length and order; otherwise it raises the first record's failure |
| Params.InitialParams | wx.py:47-53 | the defaults hold exactly the five keys, with the given units, JSON format and decimal precision |
| Params.ExplicitArgumentWins | wx.py:48-49 | a non-empty key or station argument wins over the environment; otherwise the environment value is used |
| Params.Override | wx.py:76 | with a truthy station only `stationId` changes; otherwise the defaults themselves are used |
| Params.SentParams | wx.py:131-132 | a history call sends the effective parameters with `date` set to the day's `YYYYMMDD` |
| Params.AfterLookups | wx.py:131-132 | with no station and a lookup made, `_params` gains `date` set to the last day's form and keeps every other entry; otherwise it is unchanged |
| Params.StaleDateIsOverwritten | wx.py:131-132 | a `date` left by an earlier lookup does not change what the next lookup sends |
| Params.LaterLookupOverwritesDate | wx.py:132 | each write of `date` into the defaults replaces the previous one |
| Params.DateLeaksIntoLaterCalls | wx.py:76 | after a history call without a station, every later call's effective parameters carry that date; a non-history call sends them as they are, a later history call overwrites it |
| Params.OverrideKeepsDefaults | wx.py:163-164 | with a station override the defaults are untouched by history lookups |
| Params.OverrideExample | wx.py:76 | `station="KXYZ"` replaces the station and keeps the API key and units |
| History.Fetch | wx.py:77-79 | the transport's records, or its error message as a failure |
| History.CurrentResult | wx.py:79-80 | `current` raises on an empty list and otherwise normalizes the first observation |
| History.ListResult | wx.py:92-93 | a list endpoint normalizes every record; it is empty exactly when the response is |
| History.HistoryDailyResult | wx.py:135-138 | None exactly for an empty list; otherwise the first observation normalized; failures propagate |
| History.ResolveDate | wx.py:129-130 | a date is used as is; text is accepted only as a date's form with any dashes removed; otherwise it raises |
| History.ResolveDateAcceptsBothForms | wx.py:129-130 | `YYYYMMDD` and `YYYY-MM-DD` text both name the date they spell |
| History.RangeSetup | wx.py:142-145 | no start: today with `end` as given; start but no end: error; both: the same two days, later one first |
| History.RangeSetupSwaps | wx.py:144-145 | an earlier start and later end are exchanged |
| History.DayBatch | wx.py:148-149 | a daily day is empty exactly when `history_daily` returns None or `{}`, is `[record]` for any other record, and propagates its failure; an hourly day is `history_hourly`'s normalized list |
| History.Walk | wx.py:146-152 | no day is looked up exactly when the start is already before `end`; running past the bound needs an `end`; no yielded batch is empty |
| History.Range | wx.py:140-152 | no start: a walk from today; start without end: the error, with no lookup; both: a walk from the later day down to the earlier one |
| History.WalkBatches | wx.py:146-152 | batch `i` is the non-empty lookup of the day `i` back, a day within the bound |
| History.WalkStop | wx.py:147-152 | the walk stops past `end`, at the first empty day, at the first failing lookup, or at 0001-01-01; and the day looked up last |
| History.EndIsInclusive | wx.py:147 | a walk that passed its bound yielded the bound itself last |
| History.Yielded | wx.py:151 | a generator yields as many records as its batches hold |
| History.ConcatReversed | wx.py:181 | `yield from reversed(...)` over all days yields as many records as they hold |
| History.ReverseAt | wx.py:181 | `reversed` yields the last element first |
| History.YieldedHourlyAt | wx.py:181 | hour `j` of day `i` sits at `Offset(i) + j`, counted from that day's last record |
| History.DailyWalkRecords | wx.py:146-152 | daily record `i` is the normalized, non-empty history of the day `i` back, within the bound; one record per day |
| History.HourlyWalkRecords | wx.py:176-182 | the hours of the `i`-th day back are that day's normalized list, yielded latest first after the more recent days |
| History.DailyRangeExample | wx.py:140-152 | from 2024-01-03 to 2024-01-01 with data on the 3rd and 2nd only, it yields those two records, newest first, and stops |
| Client.WeatherAPI.constructor | wx.py:36-53 | `_params` is a fresh dict holding the defaults; the arguments default to None, None and `Imperial` |
| Client.WeatherAPI.Transform | wx.py:58-67 | the record object is rewritten in place to its normalized form and returned; on failure it is unchanged |
| Client.WeatherAPI.EffectiveParams | wx.py:76 | a truthy station gives a fresh dict, the defaults with the station replaced; otherwise `_params` itself |
| Client.WeatherAPI.Current | wx.py:69-80 | sends the effective parameters to the current-conditions endpoint and returns its sole observation normalized |
| Client.WeatherAPI.DailySummary | wx.py:82-93 | sends the effective parameters and returns the summaries normalized |
| Client.WeatherAPI.Observations1DayHighres | wx.py:95-107 | sends the effective parameters and returns the observations normalized |
| Client.WeatherAPI.Observations7DayHourly | wx.py:109-120 | sends the effective parameters and returns the observations normalized |
| Client.WeatherAPI.HistoryDaily | wx.py:122-138 | rejects malformed text before any write; sends the day's parameters; `date` lands in `_params` exactly when no station is given |
| Client.WeatherAPI.HistoryHourly | wx.py:154-168 | as `HistoryDaily`, returning the whole day's records normalized |
| Client.WeatherAPI.HistoryDailyRange | wx.py:140-152 | the loop yields exactly the records of `History.Range` and stops for its reason; `_params` keeps the last looked-up date when no station is given |
| Client.WeatherAPI.HistoryHourlyRange | wx.py:170-182 | the loop yields each day's records reversed, as `History.Range` says; same stop and `_params` effect |

## Left out

- The HTTP exchange: `requests.get`, `raise_for_status`, `response.json()`, the `observations`/`summaries` key and the URL paths (wx.py:77-79 and the like). They are the `Transport` parameter. Its error is any message, and a missing key counts as such an error.
- `os.environ.get` (wx.py:48-49): the values are passed in as an `Environment`.
- `datetime.date.today()`: passed in as `today`.
- `History.ResolveDate`: weaker than `strptime`. It accepts exactly eight digits naming a valid date once dashes are removed. `strptime` also accepts some shorter forms, such as `2024-1-5`.
- `Calendar.BasicDate`: always pads the year to four digits. For years before 1000, the C library's `%Y` may not pad.
- `Normalize.Flattened`: raises `NotAMapping` for any nested value that is not an object. Python's `dict.update` also accepts an empty string, an empty list or a list of key/value pairs.
- Records are always objects here. Observations that are not objects are not modelled.
- Dict key order is not modelled: records are maps.
- JSON numbers are `real`s; floating point is not modelled.
- The endpoints normalize records as values. Each decoded record is a fresh dict that no other code holds, so doing it in place changes nothing a caller can see. `Client.WeatherAPI.Transform` models the in-place rewrite itself.
- Laziness of the generators: they are modelled drained. A caller that stops pulling early sees a prefix of the records and fewer `date` writes.
- Range arguments given as text are not modelled: the generators use them as dates. `if not start` is modelled as `start is None`, since dates are always truthy.
- `__repr__` (wx.py:55-56), the commented-out time parsing (wx.py:65-66) and the `__main__` demo (wx.py:185-194).
- The `Units` codes (wx.py:18-24) are plain string constants; only `Imperial`, the default of `__init__`, is used by the model.
