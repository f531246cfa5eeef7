/** fetch_weather.py: the 05:00-08:00 averages of one day's hourly Open-Meteo
    readings, the choice of the target day and of the archive endpoint, and
    the single fallback from the archive to the forecast endpoint. */
module FetchWeather {
  import opened Common
  import opened HistoryTable

  /** A decoded JSON series: None stands for a `null` reading. */
  type Series = seq<Option<real>>

  /** `weather_json["hourly"]`: the time axis and the five requested series. */
  datatype Hourly = Hourly(time: seq<string>, temperature: Series, humidity: Series,
                           wind: Series, cloud: Series, rain: Series)

  /** The dictionary average_morning returns: the day of the first morning
      reading and the five means. */
  datatype Averages = Averages(day: int, temp: real, humidity: real, wind: real, cloud: real, rain: real)

  /** `target_hours = {5, 6, 7, 8}`. */
  predicate TargetHour(hour: int) {
    hour == 5 || hour == 6 || hour == 7 || hour == 8
  }

  /** Time stamp i parses and falls in the morning band. */
  predicate Selected(times: seq<string>, parseTime: TimestampParser, i: int) {
    0 <= i < |times| && parseTime(times[i]).Some? && TargetHour(parseTime(times[i]).value.hour)
  }

  /** The indices the loop of average_morning collects: every index whose
      hour is 5 to 8, in ascending order, unless a time stamp does not parse
      (fromisoformat raises and nothing is collected). */
  function MorningIndices(times: seq<string>, parseTime: TimestampParser): (r: Result<seq<nat>>)
    ensures r.Err? <==> exists i :: 0 <= i < |times| && parseTime(times[i]).None?
    ensures r.Err? ==> r.error == MalformedRecord
    ensures r.Ok? ==> forall i :: i in r.value <==> Selected(times, parseTime, i)
    ensures r.Ok? ==> forall k :: 0 <= k < |r.value| ==> r.value[k] < |times|
    ensures r.Ok? ==> forall a, b :: 0 <= a < b < |r.value| ==> r.value[a] < r.value[b]
  {
    if times == [] then Ok([])
    else
      var n := |times| - 1;
      var init := times[..n];
      assert forall i :: 0 <= i < n ==> init[i] == times[i];
      match MorningIndices(init, parseTime)
      case Err(e) => Err(e)
      case Ok(ks) =>
        match parseTime(times[n])
        case None => Err(MalformedRecord)
        case Some(ts) =>
          assert forall i :: 0 <= i < n ==> (Selected(init, parseTime, i) <==> Selected(times, parseTime, i));
          if TargetHour(ts.hour) then Ok(ks + [n]) else Ok(ks)
  }

  /** Every selected index lies inside the series. */
  predicate Reaches(series: Series, ks: seq<nat>) {
    forall k :: 0 <= k < |ks| ==> ks[k] < |series|
  }

  /** Every selected reading exists and is a number. */
  predicate Present(series: Series, ks: seq<nat>) {
    Reaches(series, ks) && forall k :: 0 <= k < |ks| ==> series[ks[k]].Some?
  }

  /** `[series[i] for i in indices]`, once every one is a number. */
  function At(series: Series, ks: seq<nat>): (vs: seq<real>)
    requires Present(series, ks)
    ensures |vs| == |ks| && forall k :: 0 <= k < |ks| ==> Some(vs[k]) == series[ks[k]]
  {
    seq(|ks|, k requires 0 <= k < |ks| && ks[k] < |series| && series[ks[k]].Some? => series[ks[k]].value)
  }

  /** `mean(series[i] for i in indices)`: building the list raises
      IndexError at an index past the series, then `sum` raises TypeError
      at a null; otherwise the arithmetic mean. */
  function SeriesMean(series: Series, ks: seq<nat>): (r: Result<real>)
    requires |ks| > 0
    ensures r.Ok? <==> Present(series, ks)
    ensures !Reaches(series, ks) ==> r == Err(IndexOutOfRange)
    ensures Reaches(series, ks) && !Present(series, ks) ==> r == Err(NullReading)
    ensures r.Ok? ==> r.value == Mean(At(series, ks)) && r.value * (|ks| as real) == Sum(At(series, ks))
  {
    if !Reaches(series, ks) then Err(IndexOutOfRange)
    else if !Present(series, ks) then Err(NullReading)
    else Ok(Mean(At(series, ks)))
  }

  /** The five series in the order the result dictionary evaluates them. */
  function SeriesOf(h: Hourly): seq<Series> {
    [h.temperature, h.humidity, h.wind, h.cloud, h.rain]
  }

  /** The means of several series, evaluated in order: the first series
      that fails decides the error. */
  function MeansOf(ss: seq<Series>, ks: seq<nat>): (r: Result<seq<real>>)
    requires |ks| > 0
    ensures r.Ok? <==> forall j :: 0 <= j < |ss| ==> Present(ss[j], ks)
    ensures r.Ok? ==> |r.value| == |ss| && forall j :: 0 <= j < |ss| ==> SeriesMean(ss[j], ks) == Ok(r.value[j])
    ensures r.Err? ==> exists j :: 0 <= j < |ss| && SeriesMean(ss[j], ks) == Err(r.error) &&
                                   forall i :: 0 <= i < j ==> Present(ss[i], ks)
  {
    if ss == [] then Ok([])
    else
      match SeriesMean(ss[0], ks)
      case Err(e) => Err(e)
      case Ok(m) =>
        var rest := MeansOf(ss[1..], ks);
        assert forall j :: 1 <= j < |ss| ==> ss[j] == ss[1..][j - 1];
        match rest
        case Err(e) => Err(e)
        case Ok(ms) => Ok([m] + ms)
  }

  /** Every selected reading of the five series exists and is a number. */
  predicate Complete(h: Hourly, ks: seq<nat>) {
    Present(h.temperature, ks) && Present(h.humidity, ks) && Present(h.wind, ks) &&
    Present(h.cloud, ks) && Present(h.rain, ks)
  }

  /** The result dictionary of average_morning for the selected readings
      ks: the day of the first one, then the five means, the first series
      that fails deciding the error. */
  function AveragesAt(h: Hourly, parseTime: TimestampParser, ks: seq<nat>): (r: Result<Averages>)
    requires |ks| > 0 && ks[0] < |h.time| && parseTime(h.time[ks[0]]).Some?
    ensures r.Err? <==> !Complete(h, ks)
    ensures r.Err? ==> MeansOf(SeriesOf(h), ks).Err? && r.error == MeansOf(SeriesOf(h), ks).error
    ensures r.Ok? ==> SummarisesMorning(h, parseTime, ks, r.value)
  {
    var ss := SeriesOf(h);
    var means := MeansOf(ss, ks);
    assert ss[0] == h.temperature && ss[1] == h.humidity && ss[2] == h.wind;
    assert ss[3] == h.cloud && ss[4] == h.rain;
    if means.Err? then
      assert !Complete(h, ks);
      Err(means.error)
    else
      var ms := means.value;
      assert SeriesMean(ss[0], ks) == Ok(ms[0]) && SeriesMean(ss[1], ks) == Ok(ms[1]);
      assert SeriesMean(ss[2], ks) == Ok(ms[2]) && SeriesMean(ss[3], ks) == Ok(ms[3]);
      assert SeriesMean(ss[4], ks) == Ok(ms[4]);
      Ok(Averages(parseTime(h.time[ks[0]]).value.day, ms[0], ms[1], ms[2], ms[3], ms[4]))
  }

  /** average_morning on an hourly payload: the morning indices, a
      ValueError without any; then the five means in order, the first
      IndexError or TypeError standing; otherwise the day of the first index
      and the five means. */
  function MorningAverage(h: Hourly, parseTime: TimestampParser): (r: Result<Averages>)
    ensures MorningIndices(h.time, parseTime).Err? ==> r == Err(MalformedRecord)
    ensures MorningIndices(h.time, parseTime) == Ok([]) ==> r == Err(NoTargetHours)
    ensures MorningIndices(h.time, parseTime).Ok? && MorningIndices(h.time, parseTime).value != [] ==>
      var ks := MorningIndices(h.time, parseTime).value;
      && (r.Err? <==> !Complete(h, ks))
      && (r.Err? ==> MeansOf(SeriesOf(h), ks).Err? && r.error == MeansOf(SeriesOf(h), ks).error)
      && (r.Ok? ==> SummarisesMorning(h, parseTime, ks, r.value))
  {
    match MorningIndices(h.time, parseTime)
    case Err(e) => Err(e)
    case Ok(ks) =>
      if ks == [] then Err(NoTargetHours)
      else
        assert ks[0] in ks;
        AveragesAt(h, parseTime, ks)
  }

  /** `a` summarises the selected readings ks: the day of the first one,
      and each field the mean of its series over ks. */
  predicate SummarisesMorning(h: Hourly, parseTime: TimestampParser, ks: seq<nat>, a: Averages) {
    && |ks| > 0 && Complete(h, ks)
    && ks[0] < |h.time| && parseTime(h.time[ks[0]]).Some?
    && a.day == parseTime(h.time[ks[0]]).value.day
    && a.temp == Mean(At(h.temperature, ks))
    && a.humidity == Mean(At(h.humidity, ks))
    && a.wind == Mean(At(h.wind, ks))
    && a.cloud == Mean(At(h.cloud, ks))
    && a.rain == Mean(At(h.rain, ks))
  }

  /** average_morning as written: the loop collecting the indices, then the
      date and the means. */
  method AverageMorning(h: Hourly, parseTime: TimestampParser) returns (r: Result<Averages>)
    ensures r == MorningAverage(h, parseTime)
  {
    var indices: seq<nat> := [];
    var i := 0;
    while i < |h.time|
      invariant 0 <= i <= |h.time|
      invariant MorningIndices(h.time[..i], parseTime) == Ok(indices)
    {
      assert h.time[..i + 1][..i] == h.time[..i];
      var ts := parseTime(h.time[i]);
      if ts.None? {
        assert h.time[..i + 1][i] == h.time[i];
        MalformedPrefix(h.time, parseTime, i);
        return Err(MalformedRecord);
      }
      if TargetHour(ts.value.hour) {
        indices := indices + [i];
      }
      i := i + 1;
    }
    assert h.time[..i] == h.time;
    if indices == [] {
      return Err(NoTargetHours);
    }
    assert indices[0] in indices;
    r := AveragesAt(h, parseTime, indices);
  }

  /** A time stamp that does not parse makes the whole axis fail. */
  lemma MalformedPrefix(times: seq<string>, parseTime: TimestampParser, i: nat)
    requires i < |times| && parseTime(times[i]).None?
    ensures MorningIndices(times, parseTime) == Err(MalformedRecord)
  {
  }

  /** The day reported is that of the earliest morning reading: no earlier
      time stamp has an hour from 5 to 8. */
  lemma MorningDayIsFirst(h: Hourly, parseTime: TimestampParser)
    requires MorningAverage(h, parseTime).Ok?
    ensures exists i :: (Selected(h.time, parseTime, i) &&
      MorningAverage(h, parseTime).value.day == parseTime(h.time[i]).value.day &&
      forall j :: 0 <= j < i ==> !Selected(h.time, parseTime, j))
  {
    var ks := MorningIndices(h.time, parseTime).value;
    var a := MorningAverage(h, parseTime).value;
    assert SummarisesMorning(h, parseTime, ks, a);
    assert ks[0] in ks;
    assert forall x :: x in ks ==> ks[0] <= x by {
      forall x | x in ks ensures ks[0] <= x {
        var m :| 0 <= m < |ks| && ks[m] == x;
        assert m == 0 || ks[0] < ks[m];
      }
    }
    assert Selected(h.time, parseTime, ks[0]) && a.day == parseTime(h.time[ks[0]]).value.day;
  }

  /** `m` lies between the smallest and the largest of series at ks. */
  predicate Bounded(series: Series, ks: seq<nat>, m: real) {
    && (exists k :: 0 <= k < |ks| && ks[k] < |series| && series[ks[k]].Some? && series[ks[k]].value <= m)
    && (exists k :: 0 <= k < |ks| && ks[k] < |series| && series[ks[k]].Some? && m <= series[ks[k]].value)
  }

  /** Each average lies between the smallest and the largest reading of
      its series in the morning band. */
  lemma MorningMeansBounded(h: Hourly, parseTime: TimestampParser)
    requires MorningAverage(h, parseTime).Ok?
    ensures var a := MorningAverage(h, parseTime).value;
      var ks := MorningIndices(h.time, parseTime).value;
      && Bounded(h.temperature, ks, a.temp) && Bounded(h.humidity, ks, a.humidity)
      && Bounded(h.wind, ks, a.wind) && Bounded(h.cloud, ks, a.cloud) && Bounded(h.rain, ks, a.rain)
  {
    var ks := MorningIndices(h.time, parseTime).value;
    MeanAtBounded(h.temperature, ks);
    MeanAtBounded(h.humidity, ks);
    MeanAtBounded(h.wind, ks);
    MeanAtBounded(h.cloud, ks);
    MeanAtBounded(h.rain, ks);
  }

  lemma MeanAtBounded(series: Series, ks: seq<nat>)
    requires |ks| > 0 && Present(series, ks)
    ensures Bounded(series, ks, Mean(At(series, ks)))
  {
    var vs := At(series, ks);
    var m := Mean(vs);
    var k1 :| 0 <= k1 < |vs| && vs[k1] <= m;
    var k2 :| 0 <= k2 < |vs| && m <= vs[k2];
    assert series[ks[k1]].value <= m && m <= series[ks[k2]].value;
  }

  // ----- the target day and the endpoint -----

  /** The day to fetch and whether the archive endpoint is asked first. */
  datatype Target = Target(day: int, archive: bool)

  /** `if args.date:` — a --date that was passed and is not empty. */
  predicate Given(dateArg: Option<string>) {
    dateArg.Some? && dateArg.value != ""
  }

  /** The rule in main: a given --date is fetched from the archive when
      --use-archive is set or the date is before today; without --date (or
      with an empty one, which is falsy) the target is tomorrow and only the
      flag selects the archive. */
  function ChooseTarget(dateArg: Option<string>, useArchive: bool, today: int, parseDate: DateParser): (r: Result<Target>)
    ensures !Given(dateArg) ==> r == Ok(Target(today + 1, useArchive))
    ensures Given(dateArg) ==> (r.Err? <==> parseDate(dateArg.value).None?)
    ensures r.Err? ==> r.error == MalformedRecord
    ensures Given(dateArg) && r.Ok? ==> r.value.day == parseDate(dateArg.value).value
    ensures r.Ok? ==> (r.value.archive <==> useArchive || (Given(dateArg) && r.value.day < today))
  {
    if !Given(dateArg) then Ok(Target(today + 1, useArchive))
    else
      match parseDate(dateArg.value)
      case None => Err(MalformedRecord)
      case Some(day) => Ok(Target(day, useArchive || day < today))
  }

  /** Without the flag, the archive is chosen only for a past day, and
      today or a later day always goes to the forecast endpoint. */
  lemma ArchiveOnlyForPastDays(dateArg: Option<string>, today: int, parseDate: DateParser)
    requires ChooseTarget(dateArg, false, today, parseDate).Ok?
    ensures var t := ChooseTarget(dateArg, false, today, parseDate).value;
      t.archive <==> t.day < today
  {
  }

  datatype Endpoint = ArchiveApi | ForecastApi

  /** ARCHIVE_URL and FORECAST_URL. */
  function Url(e: Endpoint): (u: string)
    ensures (u == "https://archive-api.open-meteo.com/v1/archive") <==> e == ArchiveApi
    ensures (u == "https://api.open-meteo.com/v1/forecast") <==> e == ForecastApi
  {
    match e
    case ArchiveApi => "https://archive-api.open-meteo.com/v1/archive"
    case ForecastApi => "https://api.open-meteo.com/v1/forecast"
  }

  /** An HTTP response: its status code and its decoded JSON body. */
  datatype Response = Response(status: int, body: Hourly)

  /** What the endpoint answers for a day (the query parameters are fixed). */
  type Server = (Endpoint, int) -> Response

  /** The endpoints fetch_weather calls, in order: the archive or the
      forecast endpoint, and the forecast endpoint a second time only after
      the archive answered 400. */
  function Requests(t: Target, server: Server): (rs: seq<Endpoint>)
    ensures 1 <= |rs| <= 2
    ensures rs[0] == (if t.archive then ArchiveApi else ForecastApi)
    ensures |rs| == 2 <==> t.archive && server(ArchiveApi, t.day).status == 400
    ensures |rs| == 2 ==> rs[1] == ForecastApi
  {
    if t.archive && server(ArchiveApi, t.day).status == 400 then [ArchiveApi, ForecastApi]
    else [if t.archive then ArchiveApi else ForecastApi]
  }

  /** `raise_for_status`: statuses 400 to 599 raise. */
  predicate Failed(status: int) {
    400 <= status < 600
  }

  /** fetch_weather: the last response's body, or HTTPError when its status
      is an error. */
  function FetchWeather(t: Target, server: Server): (r: Result<Hourly>)
    ensures var last := server(Requests(t, server)[|Requests(t, server)| - 1], t.day);
      && (r.Err? <==> Failed(last.status))
      && (r.Err? ==> r.error == HttpError)
      && (r.Ok? ==> r.value == last.body)
  {
    var rs := Requests(t, server);
    var resp := server(rs[|rs| - 1], t.day);
    if Failed(resp.status) then Err(HttpError) else Ok(resp.body)
  }

  /** A forecast request is never retried, and a successful archive answer
      is used as it is. */
  lemma FallbackOnlyAfterArchive400(t: Target, server: Server)
    ensures !t.archive ==> Requests(t, server) == [ForecastApi]
    ensures t.archive && server(ArchiveApi, t.day).status != 400 ==>
      FetchWeather(t, server) == (if Failed(server(ArchiveApi, t.day).status) then Err(HttpError)
                                  else Ok(server(ArchiveApi, t.day).body))
    ensures t.archive && server(ArchiveApi, t.day).status == 400 ==>
      FetchWeather(t, server) == (if Failed(server(ForecastApi, t.day).status) then Err(HttpError)
                                  else Ok(server(ForecastApi, t.day).body))
  {
  }
}
