/**
 * What the endpoint methods of wx.py compute once the HTTP exchange is
 * abstracted, and the two backward-stepping range generators
 * (`history_daily_range`, `history_hourly_range`) as one walk over days.
 */
module History {
  import opened Wrappers
  import opened Json
  import opened Calendar
  import opened Normalize
  import opened Params

  /** The six fixed API paths. */
  datatype Endpoint =
    | CurrentObservations      // /pws/observations/current
    | DailySummary7Day         // /pws/dailysummary/7day
    | AllObservations1Day      // /pws/observations/all/1day
    | HourlyObservations7Day   // /pws/observations/hourly/7day
    | DailyHistory             // /pws/history/daily
    | HourlyHistory            // /pws/history/hourly

  /**
   * One GET with `raise_for_status`, `json()` and the unwrapping of its
   * `observations` (or `summaries`) list: the records, or the message of
   * the error it raised.
   */
  type Transport = (Endpoint, ParamMap) -> Result<seq<Record>, string>

  function Fetch(transport: Transport, endpoint: Endpoint, params: ParamMap): (r: Result<seq<Record>, Failure>)
    ensures r.Err? <==> transport(endpoint, params).Err?
    ensures r.Ok? ==> r.value == transport(endpoint, params).value
    ensures r.Err? ==> r.error == Transport(transport(endpoint, params).error)
  {
    match transport(endpoint, params)
    case Ok(rs) => Ok(rs)
    case Err(m) => Err(Transport(m))
  }

  /** `current`: the sole observation, normalized. */
  function CurrentResult(obs: Result<seq<Record>, Failure>): (r: Result<Record, Failure>)
    ensures obs.Err? ==> r == Err(obs.error)
    ensures obs == Ok([]) ==> r == Err(NoObservation)
    ensures obs.Ok? && obs.value != [] ==> r == Flattened(obs.value[0])
  {
    match obs
    case Err(e) => Err(e)
    case Ok(rs) => if rs == [] then Err(NoObservation) else Flattened(rs[0])
  }

  /** `dailysummary`, `observations_*` and `history_hourly`: every record, normalized. */
  function ListResult(obs: Result<seq<Record>, Failure>): (r: Result<seq<Record>, Failure>)
    ensures obs.Err? ==> r == Err(obs.error)
    ensures obs.Ok? ==> r == FlattenAll(obs.value)
    ensures r == Ok([]) <==> obs == Ok([])
  {
    match obs
    case Err(e) => Err(e)
    case Ok(rs) => FlattenAll(rs)
  }

  /** `history_daily`: None when the day has no observations, else the first one normalized. */
  function HistoryDailyResult(obs: Result<seq<Record>, Failure>): (r: Result<Option<Record>, Failure>)
    ensures r == Ok(None) <==> obs == Ok([])
    ensures r.Ok? && r.value.Some? ==> obs.Ok? && obs.value != [] && Flattened(obs.value[0]) == Ok(r.value.value)
    ensures r.Err? ==> obs == Err(r.error) || (obs.Ok? && obs.value != [] && Flattened(obs.value[0]) == Err(r.error))
  {
    match obs
    case Err(e) => Err(e)
    case Ok(rs) =>
      if rs == [] then Ok(None)
      else match Flattened(rs[0])
        case Err(e) => Err(e)
        case Ok(first) => Ok(Some(first))
  }

  /** The `date` argument of the single-day history calls: a date, or text. */
  datatype DateArg = OnDate(day: Day) | Text(text: string)

  /**
   * `if isinstance(date, str): date = strptime(date.replace("-", ""), "%Y%m%d")`,
   * read strictly: accepted text is, dashes removed, the basic form of the date.
   */
  function ResolveDate(date: DateArg): (r: Result<Day, Failure>)
    ensures date.OnDate? ==> r == Ok(date.day)
    ensures date.Text? && r.Ok? ==> BasicDate(r.value) == StripDashes(date.text)
    ensures r.Err? ==> date.Text? && r.error == MalformedDate(date.text)
  {
    match date
    case OnDate(d) => Ok(d)
    case Text(t) =>
      match ParseBasicDate(StripDashes(t))
      case Some(d) => Ok(d)
      case None => Err(MalformedDate(t))
  }

  /** Both `YYYYMMDD` and `YYYY-MM-DD` text name the date they spell. */
  lemma ResolveDateAcceptsBothForms(d: Day)
    ensures ResolveDate(Text(BasicDate(d))) == Ok(d)
    ensures ResolveDate(Text(ExtendedDate(d))) == Ok(d)
  {
    StripDashesOfDigits(BasicDate(d));
    ExtendedDateStripsToBasic(d);
    BasicDateRoundTrip(d);
  }

  // ---------------------------------------------------------------------
  // Range setup

  /**
   * The first lines of both range generators: with no `start` the walk
   * begins today with `end` as given; with a `start`, `start < end` is
   * evaluated (raising when `end` is None) and the two are swapped when
   * it holds, so the walk always runs from the later day to the earlier.
   */
  function RangeSetup(start: Option<Day>, end: Option<Day>, today: Day): (r: Result<(Day, Option<Day>), Failure>)
    ensures start.None? ==> r == Ok((today, end))
    ensures start.Some? && end.None? ==> r == Err(Unordered)
    ensures start.Some? && end.Some? ==>
      && r.Ok? && r.value.1.Some?
      && !Before(r.value.0, r.value.1.value)
      && {r.value.0, r.value.1.value} == {start.value, end.value}
  {
    if start.None? then Ok((today, end))
    else if end.None? then Err(Unordered)
    else if Before(start.value, end.value) then Ok((end.value, start))
    else Ok((start.value, end))
  }

  /** An earlier `start` and a later `end` are exchanged. */
  lemma RangeSetupSwaps(start: Day, end: Day, today: Day)
    requires Before(start, end)
    ensures RangeSetup(Some(start), Some(end), today) == Ok((end, Some(start)))
  {
  }

  // ---------------------------------------------------------------------
  // The walk

  datatype Granularity = Daily | Hourly

  /** Why a range generator stopped. */
  datatype Stop =
    | PastEnd              // the loop test `end is None or current >= end` failed
    | NoMoreData           // `if not result: return`
    | Raised(failure: Failure)

  /**
   * A drained generator: the per-day batches it fetched and yielded, most
   * recent first, why it stopped, and the last day it looked up (the one
   * whose `date` a lookup without station leaves in `_params`).
   */
  datatype WalkRun = WalkRun(batches: seq<seq<Record>>, stop: Stop, lastDay: Option<Day>)

  /**
   * What one day contributes. Hourly: the day's normalized list. Daily:
   * the normalized record as a one-element batch, and the empty batch
   * for what `not result` treats as falsy, None or an empty record.
   */
  function DayBatch(kind: Granularity, transport: Transport, base: ParamMap, station: Option<string>, d: Day): (r: Result<seq<Record>, Failure>)
    ensures kind == Daily && r.Ok? ==> |r.value| <= 1
    ensures kind == Daily ==>
      var h := HistoryDailyResult(Fetch(transport, DailyHistory, SentParams(base, station, d)));
      && (r == Ok([]) <==> h == Ok(None) || h == Ok(Some(map[])))
      && (h.Err? ==> r == Err(h.error))
      && (h.Ok? && h.value.Some? && h.value.value != map[] ==> r == Ok([h.value.value]))
    ensures kind == Hourly ==> r == ListResult(Fetch(transport, HourlyHistory, SentParams(base, station, d)))
  {
    var sent := SentParams(base, station, d);
    match kind
    case Hourly => ListResult(Fetch(transport, HourlyHistory, sent))
    case Daily =>
      match HistoryDailyResult(Fetch(transport, DailyHistory, sent))
      case Err(e) => Err(e)
      case Ok(None) => Ok([])
      case Ok(Some(rec)) => if rec == map[] then Ok([]) else Ok([rec])
  }

  /** A per-day lookup, as the walk sees it. */
  type Lookup = Day -> Result<seq<Record>, Failure>

  /** The lookup a generator of the given kind performs for each day. */
  function DayLookup(kind: Granularity, transport: Transport, base: ParamMap, station: Option<string>): (lookup: Lookup)
    ensures forall d :: lookup(d) == DayBatch(kind, transport, base, station, d)
  {
    (d: Day) => DayBatch(kind, transport, base, station, d)
  }

  /** The days already walked, followed by the rest of the walk. */
  function Resume(done: seq<seq<Record>>, last: Option<Day>, rest: WalkRun): (w: WalkRun)
  {
    WalkRun(done + rest.batches, rest.stop, if rest.lastDay.Some? then rest.lastDay else last)
  }

  /**
   * The generator loop from `current`: while `end` is None or the day is
   * not before `end`, look the day up; stop on a failure or an empty
   * batch; otherwise yield it and step back a day.
   */
  function Walk(lookup: Lookup, current: Day, end: Option<Day>): (w: WalkRun)
    ensures w.lastDay.None? <==> end.Some? && Before(current, end.value)
    ensures w.stop == PastEnd ==> end.Some?
    ensures forall k :: 0 <= k < |w.batches| ==> w.batches[k] != []
    decreases current.year, current.month, current.day
  {
    if end.Some? && Before(current, end.value) then WalkRun([], PastEnd, None)
    else match lookup(current)
      case Err(e) => WalkRun([], Raised(e), Some(current))
      case Ok(batch) =>
        if batch == [] then WalkRun([], NoMoreData, Some(current))
        else match PrevDay(current)
          case None => WalkRun([batch], Raised(DateOverflow), Some(current))
          case Some(p) => Resume([batch], Some(current), Walk(lookup, p, end))
  }

  /** Resuming at a day past the bound ends the walk there. */
  lemma ResumePastEnd(done: seq<seq<Record>>, last: Option<Day>, lookup: Lookup, current: Day, end: Day)
    requires Before(current, end)
    ensures Resume(done, last, Walk(lookup, current, Some(end))) == WalkRun(done, PastEnd, last)
  {
    assert done + [] == done;
  }

  /** Resuming at a day within the bound performs that day's lookup and goes on from there. */
  lemma ResumeStep(done: seq<seq<Record>>, last: Option<Day>, lookup: Lookup, current: Day, end: Option<Day>)
    requires end.None? || !Before(current, end.value)
    ensures var w := Resume(done, last, Walk(lookup, current, end));
      match lookup(current)
      case Err(e) => w == WalkRun(done, Raised(e), Some(current))
      case Ok(batch) =>
        if batch == [] then w == WalkRun(done, NoMoreData, Some(current))
        else match PrevDay(current)
          case None => w == WalkRun(done + [batch], Raised(DateOverflow), Some(current))
          case Some(p) => w == Resume(done + [batch], Some(current), Walk(lookup, p, end))
  {
    assert done + [] == done;
    match lookup(current)
    case Err(e) =>
    case Ok(batch) =>
      if batch != [] {
        match PrevDay(current)
        case None =>
        case Some(p) =>
          var rest := Walk(lookup, p, end);
          assert done + ([batch] + rest.batches) == (done + [batch]) + rest.batches;
      }
  }

  /** A whole generator run: setup, then the walk. */
  function Range(kind: Granularity, transport: Transport, base: ParamMap, station: Option<string>,
                 start: Option<Day>, end: Option<Day>, today: Day): (w: WalkRun)
    ensures start.None? ==> w == Walk(DayLookup(kind, transport, base, station), today, end)
    ensures start.Some? && end.None? ==> w == WalkRun([], Raised(Unordered), None)
    ensures start.Some? && end.Some? ==>
      var (later, earlier) := if Before(start.value, end.value) then (end.value, start.value) else (start.value, end.value);
      w == Walk(DayLookup(kind, transport, base, station), later, Some(earlier))
  {
    match RangeSetup(start, end, today)
    case Err(e) => WalkRun([], Raised(e), None)
    case Ok((first, last)) => Walk(DayLookup(kind, transport, base, station), first, last)
  }

  /**
   * Batch `i` is the lookup of the day `i` days back from `current`: a
   * day within the bound, whose batch was neither empty nor a failure.
   */
  lemma {:induction false} WalkBatches(lookup: Lookup, current: Day, end: Option<Day>, i: nat)
    requires i < |Walk(lookup, current, end).batches|
    ensures Back(current, i).Some?
    ensures end.Some? ==> !Before(Back(current, i).value, end.value)
    ensures var b := Walk(lookup, current, end).batches[i];
      b != [] && lookup(Back(current, i).value) == Ok(b)
    decreases current.year, current.month, current.day
  {
    if i > 0 {
      var p := PrevDay(current).value;
      WalkBatches(lookup, p, end, i - 1);
    }
  }

  /**
   * How the walk ends, `k` being the number of days yielded: past `end`
   * (the next day is before it), at an empty day within the bound, at a
   * failing lookup of such a day, or when stepping back from 0001-01-01;
   * and which day was looked up last.
   */
  lemma {:induction false} WalkStop(lookup: Lookup, current: Day, end: Option<Day>)
    ensures var w := Walk(lookup, current, end);
      var k := |w.batches|;
      match w.stop
      case PastEnd =>
        && end.Some? && Back(current, k).Some? && Before(Back(current, k).value, end.value)
        && w.lastDay == (if k == 0 then None else Back(current, k - 1))
      case NoMoreData =>
        && Back(current, k).Some? && (end.Some? ==> !Before(Back(current, k).value, end.value))
        && lookup(Back(current, k).value) == Ok([])
        && w.lastDay == Back(current, k)
      case Raised(e) =>
        || (e == DateOverflow && k > 0 && Back(current, k).None? && w.lastDay == Back(current, k - 1))
        || (&& Back(current, k).Some? && (end.Some? ==> !Before(Back(current, k).value, end.value))
            && lookup(Back(current, k).value) == Err(e)
            && w.lastDay == Back(current, k))
    decreases current.year, current.month, current.day
  {
    if !(end.Some? && Before(current, end.value)) && lookup(current).Ok? && lookup(current).value != [] && PrevDay(current).Some? {
      var p := PrevDay(current).value;
      WalkStop(lookup, p, end);
      var rest := Walk(lookup, p, end);
      assert |Walk(lookup, current, end).batches| == |rest.batches| + 1;
      assert Back(current, |rest.batches| + 1) == Back(p, |rest.batches|);
      if |rest.batches| > 0 {
        assert Back(current, |rest.batches|) == Back(p, |rest.batches| - 1);
      }
    }
  }

  /**
   * `end` is inclusive: a walk that ran past its bound yielded the bound
   * itself last (or yielded nothing because it began before the bound).
   */
  lemma EndIsInclusive(lookup: Lookup, current: Day, end: Day)
    ensures var w := Walk(lookup, current, Some(end));
      w.stop == PastEnd ==>
        if w.batches == [] then Before(current, end) else Back(current, |w.batches| - 1) == Some(end)
  {
    var w := Walk(lookup, current, Some(end));
    WalkStop(lookup, current, Some(end));
    var k := |w.batches|;
    if w.stop == PastEnd && k > 0 {
      WalkBatches(lookup, current, Some(end), k - 1);
      var last := Back(current, k - 1).value;
      BackStep(current, k - 1);
      PrevDayIsImmediate(last, end);
    }
  }

  // ---------------------------------------------------------------------
  // From batches to what the generators yield

  function Reverse<T>(s: seq<T>): (r: seq<T>)
    ensures |r| == |s|
  {
    if s == [] then [] else Reverse(s[1..]) + [s[0]]
  }

  /** `reversed(s)` yields the last element first. */
  lemma {:induction false} ReverseAt<T>(s: seq<T>, j: nat)
    requires j < |s|
    ensures Reverse(s)[j] == s[|s| - 1 - j]
  {
    if j < |s| - 1 {
      ReverseAt(s[1..], j);
    }
  }

  function Concat<T>(bs: seq<seq<T>>): (r: seq<T>)
    ensures |r| == Offset(bs, |bs|)
  {
    if bs == [] then [] else bs[0] + Concat(bs[1..])
  }

  /** `yield from reversed(batch)` for every batch in turn. */
  function ConcatReversed<T>(bs: seq<seq<T>>): (r: seq<T>)
    ensures |r| == Offset(bs, |bs|)
  {
    if bs == [] then [] else Reverse(bs[0]) + ConcatReversed(bs[1..])
  }

  /** The number of records yielded for the first `i` batches. */
  function Offset<T>(bs: seq<seq<T>>, i: nat): (n: nat)
    requires i <= |bs|
  {
    if i == 0 then 0 else |bs[0]| + Offset(bs[1..], i - 1)
  }

  /** What a generator of the given kind yields for these batches. */
  function Yielded(kind: Granularity, bs: seq<seq<Record>>): (r: seq<Record>)
    ensures |r| == Offset(bs, |bs|)
  {
    match kind
    case Daily => Concat(bs)
    case Hourly => ConcatReversed(bs)
  }

  lemma {:induction false} YieldedAppend(kind: Granularity, bs: seq<seq<Record>>, b: seq<Record>)
    ensures Yielded(kind, bs + [b]) == Yielded(kind, bs) + (if kind == Daily then b else Reverse(b))
  {
    if bs == [] {
      assert bs + [b] == [b];
      assert [b][1..] == [];
    } else {
      assert (bs + [b])[1..] == bs[1..] + [b];
      YieldedAppend(kind, bs[1..], b);
    }
  }

  /** One-element batches yield one record each, in batch order. */
  lemma {:induction false} ConcatSingletons<T>(bs: seq<seq<T>>)
    requires forall i :: 0 <= i < |bs| ==> |bs[i]| == 1
    ensures |Concat(bs)| == |bs|
    ensures forall i :: 0 <= i < |bs| ==> Concat(bs)[i] == bs[i][0]
  {
    if bs != [] {
      ConcatSingletons(bs[1..]);
    }
  }

  /** Within the output, batch `i` occupies the positions from `Offset(bs, i)`, reversed. */
  lemma {:induction false} ConcatReversedAt<T>(bs: seq<seq<T>>, i: nat, j: nat)
    requires i < |bs| && j < |bs[i]|
    ensures Offset(bs, i) + j < |ConcatReversed(bs)| == Offset(bs, |bs|)
    ensures ConcatReversed(bs)[Offset(bs, i) + j] == bs[i][|bs[i]| - 1 - j]
  {
    if i == 0 {
      ReverseAt(bs[0], j);
    } else {
      ConcatReversedAt(bs[1..], i - 1, j);
    }
  }

  /**
   * Hour `j` of batch `i` is yielded at position `Offset(bs, i) + j`,
   * counted from the batch's last record: later hours first.
   */
  predicate HourlyAt(bs: seq<seq<Record>>, i: nat, j: nat)
    requires i < |bs| && j < |bs[i]|
  {
    && |Yielded(Hourly, bs)| == Offset(bs, |bs|)
    && Offset(bs, i) + j < |Yielded(Hourly, bs)|
    && Yielded(Hourly, bs)[Offset(bs, i) + j] == bs[i][|bs[i]| - 1 - j]
  }

  lemma YieldedHourlyAt(bs: seq<seq<Record>>, i: nat, j: nat)
    requires i < |bs| && j < |bs[i]|
    ensures HourlyAt(bs, i, j)
  {
    ConcatReversedAt(bs, i, j);
  }

  // ---------------------------------------------------------------------
  // The two generators

  /**
   * `history_daily_range`: record `i` is the normalized, non-empty
   * single-day history of the day `i` days back from the walk's first
   * day, a day within the bound.
   */
  lemma DailyWalkRecords(transport: Transport, base: ParamMap, station: Option<string>, current: Day, end: Option<Day>, i: nat)
    requires i < |Walk(DayLookup(Daily, transport, base, station), current, end).batches|
    ensures var w := Walk(DayLookup(Daily, transport, base, station), current, end);
      var records := Yielded(Daily, w.batches);
      && |records| == |w.batches|
      && Back(current, i).Some?
      && (end.Some? ==> !Before(Back(current, i).value, end.value))
      && records[i] != map[]
      && HistoryDailyResult(Fetch(transport, DailyHistory, SentParams(base, station, Back(current, i).value)))
         == Ok(Some(records[i]))
  {
    var w := Walk(DayLookup(Daily, transport, base, station), current, end);
    forall k | 0 <= k < |w.batches|
      ensures |w.batches[k]| == 1
    {
      WalkBatches(DayLookup(Daily, transport, base, station), current, end, k);
    }
    ConcatSingletons(w.batches);
    WalkBatches(DayLookup(Daily, transport, base, station), current, end, i);
  }

  /**
   * `history_hourly_range`: the hours of the `i`-th day back are yielded
   * latest first, after those of the more recent days; the output holds
   * nothing else.
   */
  lemma HourlyWalkRecords(transport: Transport, base: ParamMap, station: Option<string>, current: Day, end: Option<Day>, i: nat, j: nat)
    requires i < |Walk(DayLookup(Hourly, transport, base, station), current, end).batches|
    requires j < |Walk(DayLookup(Hourly, transport, base, station), current, end).batches[i]|
    ensures Back(current, i).Some?
    ensures end.Some? ==> !Before(Back(current, i).value, end.value)
    ensures ListResult(Fetch(transport, HourlyHistory, SentParams(base, station, Back(current, i).value)))
         == Ok(Walk(DayLookup(Hourly, transport, base, station), current, end).batches[i])
    ensures HourlyAt(Walk(DayLookup(Hourly, transport, base, station), current, end).batches, i, j)
  {
    var lookup := DayLookup(Hourly, transport, base, station);
    var w := Walk(lookup, current, end);
    WalkBatches(lookup, current, end, i);
    var d := Back(current, i).value;
    assert lookup(d) == DayBatch(Hourly, transport, base, station, d);
    YieldedHourlyAt(w.batches, i, j);
  }

  /**
   * An example: from 2024-01-03 down to 2024-01-01 with data on
   * the 3rd and the 2nd only, the daily generator yields those two records,
   * newest first, and stops at the empty 1st.
   */
  lemma DailyRangeExample(transport: Transport, base: ParamMap, station: Option<string>, today: Day, r3: Record, r2: Record)
    requires r3 != map[] && r2 != map[]
    requires HistoryDailyResult(Fetch(transport, DailyHistory, SentParams(base, station, Date(2024, 1, 3)))) == Ok(Some(r3))
    requires HistoryDailyResult(Fetch(transport, DailyHistory, SentParams(base, station, Date(2024, 1, 2)))) == Ok(Some(r2))
    requires HistoryDailyResult(Fetch(transport, DailyHistory, SentParams(base, station, Date(2024, 1, 1)))) == Ok(None)
    ensures var w := Range(Daily, transport, base, station, Some(Date(2024, 1, 3)), Some(Date(2024, 1, 1)), today);
      Yielded(Daily, w.batches) == [r3, r2] && w.stop == NoMoreData
  {
    var lookup := DayLookup(Daily, transport, base, station);
    var w1 := Walk(lookup, Date(2024, 1, 1), Some(Date(2024, 1, 1)));
    assert w1 == WalkRun([], NoMoreData, Some(Date(2024, 1, 1)));
    var w2 := Walk(lookup, Date(2024, 1, 2), Some(Date(2024, 1, 1)));
    assert w2 == Resume([[r2]], Some(Date(2024, 1, 2)), w1);
    var w3 := Walk(lookup, Date(2024, 1, 3), Some(Date(2024, 1, 1)));
    assert w3 == Resume([[r3]], Some(Date(2024, 1, 3)), w2);
    assert w3.batches == [[r3], [r2]];
    assert Concat([[r2]]) == [r2];
  }
}
