/** fetch_forecast_window.py: the 05:00-08:00 averages of up to sixteen
    forecast days, grouped by day and reported in date order. */
module FetchForecastWindow {
  import opened Common
  import FetchWeather

  /** The forecast payload's hourly block: the five series of
      fetch_weather (with the time axis) and the weather codes, absent when
      the response has no "weathercode" key. */
  datatype ForecastHourly = ForecastHourly(series: FetchWeather.Hourly, weathercode: Option<seq<int>>)

  /** MorningAverage: the day, the five means and the most frequent code. */
  datatype Morning = Morning(day: int, temp: real, humidity: real, wind: real, cloud: real, rain: real,
                             weathercode: Option<int>)

  // ----- select_indices_for_hours -----

  /** Time stamp i parses, its hour is a target hour and its day is `day`. */
  predicate InGroup(times: seq<string>, parseTime: TimestampParser, hours: set<int>, day: int, i: int) {
    && 0 <= i < |times| && parseTime(times[i]).Some?
    && parseTime(times[i]).value.hour in hours && parseTime(times[i]).value.day == day
  }

  /** The dictionary select_indices_for_hours builds, one time stamp at a
      time: a time stamp that does not parse or has another hour is
      skipped, any other index is appended to its day's list. */
  function Grouped(times: seq<string>, parseTime: TimestampParser, hours: set<int>): (g: map<int, seq<nat>>)
  {
    if times == [] then map[]
    else
      var n := |times| - 1;
      var g0 := Grouped(times[..n], parseTime, hours);
      match parseTime(times[n])
      case None => g0
      case Some(ts) =>
        if ts.hour !in hours then g0
        else g0[ts.day := (if ts.day in g0 then g0[ts.day] else []) + [n]]
  }

  /** The order of the dictionary's keys: a day enters with its first
      index. */
  function KeyOrder(times: seq<string>, parseTime: TimestampParser, hours: set<int>): seq<int>
  {
    if times == [] then []
    else
      var n := |times| - 1;
      var k0 := KeyOrder(times[..n], parseTime, hours);
      match parseTime(times[n])
      case None => k0
      case Some(ts) =>
        if ts.hour !in hours || ts.day in Grouped(times[..n], parseTime, hours) then k0
        else k0 + [ts.day]
  }

  predicate Distinct(xs: seq<int>) {
    forall a, b :: 0 <= a < b < |xs| ==> xs[a] != xs[b]
  }

  /** The key order lists every key of the grouping once. */
  lemma {:induction false} KeyOrderIsKeys(times: seq<string>, parseTime: TimestampParser, hours: set<int>)
    ensures var keys := KeyOrder(times, parseTime, hours);
      Distinct(keys) && forall d :: d in keys <==> d in Grouped(times, parseTime, hours)
  {
    if times != [] {
      KeyOrderIsKeys(times[..|times| - 1], parseTime, hours);
    }
  }

  predicate Ascending(ks: seq<nat>) {
    forall a, b :: 0 <= a < b < |ks| ==> ks[a] < ks[b]
  }

  /** The shape the grouping has: every day present has a non-empty list,
      every listed index is below `n`, and each list ascends. */
  predicate GroupShape(g: map<int, seq<nat>>, n: nat) {
    forall d :: d in g ==> |g[d]| > 0 && Ascending(g[d]) && forall k :: 0 <= k < |g[d]| ==> g[d][k] < n
  }

  /** The grouping has the shape: non-empty ascending lists of indices
      below |times|. */
  lemma {:induction false} GroupedShape(times: seq<string>, parseTime: TimestampParser, hours: set<int>)
    ensures GroupShape(Grouped(times, parseTime, hours), |times|)
  {
    if times != [] {
      var n := |times| - 1;
      GroupedShape(times[..n], parseTime, hours);
      var ts := parseTime(times[n]);
      if ts.Some? && ts.value.hour in hours {
        GroupedStep(Grouped(times[..n], parseTime, hours), n, ts.value.day);
      }
    }
  }

  /** Appending index n to day's list keeps the shape. */
  lemma GroupedStep(g0: map<int, seq<nat>>, n: nat, day: int)
    requires GroupShape(g0, n)
    ensures GroupShape(g0[day := (if day in g0 then g0[day] else []) + [n]], n + 1)
  {
  }

  /** Index i is listed under day d exactly when time stamp i parses, has
      a target hour and falls on d. */
  lemma {:induction false} GroupedIndices(times: seq<string>, parseTime: TimestampParser, hours: set<int>, d: int, i: int)
    ensures var g := Grouped(times, parseTime, hours);
      (d in g && i in g[d]) <==> InGroup(times, parseTime, hours, d, i)
  {
    if times != [] {
      var n := |times| - 1;
      var init := times[..n];
      GroupedIndices(init, parseTime, hours, d, i);
      if 0 <= i < n {
        assert init[i] == times[i];
      }
      if i == n {
        GroupedShape(init, parseTime, hours);
        var g0 := Grouped(init, parseTime, hours);
      }
    }
  }

  /** A day is a key exactly when one of its time stamps has a target hour. */
  lemma GroupedKeys(times: seq<string>, parseTime: TimestampParser, hours: set<int>, d: int)
    ensures d in Grouped(times, parseTime, hours) <==> exists i :: InGroup(times, parseTime, hours, d, i)
  {
    var g := Grouped(times, parseTime, hours);
    if d in g {
      GroupedShape(times, parseTime, hours);
      GroupedIndices(times, parseTime, hours, d, g[d][0]);
    }
    if exists i :: InGroup(times, parseTime, hours, d, i) {
      var i :| InGroup(times, parseTime, hours, d, i);
      GroupedIndices(times, parseTime, hours, d, i);
    }
  }

  /** select_indices_for_hours as written: one pass, `setdefault(...).append(idx)`;
      returns the dictionary and the insertion order of its keys. */
  method SelectIndicesForHours(times: seq<string>, parseTime: TimestampParser, hours: set<int>)
    returns (grouped: map<int, seq<nat>>, keys: seq<int>)
    ensures grouped == Grouped(times, parseTime, hours)
    ensures keys == KeyOrder(times, parseTime, hours)
  {
    grouped := map[];
    keys := [];
    var i := 0;
    while i < |times|
      invariant 0 <= i <= |times|
      invariant grouped == Grouped(times[..i], parseTime, hours)
      invariant keys == KeyOrder(times[..i], parseTime, hours)
    {
      assert times[..i + 1][..i] == times[..i];
      var ts := parseTime(times[i]);
      if ts.Some? && ts.value.hour in hours {
        var key := ts.value.day;
        if key !in grouped {
          keys := keys + [key];
        }
        grouped := grouped[key := (if key in grouped then grouped[key] else []) + [i]];
      }
      i := i + 1;
    }
    assert times[..i] == times;
  }

  // ----- compute_morning_average -----

  /** How often x occurs in xs (`codes.count(x)`). */
  function Count(xs: seq<int>, x: int): nat {
    multiset(xs)[x]
  }

  /** c is one of the codes and none occurs more often. */
  predicate IsMode(cs: seq<int>, c: int) {
    c in cs && forall x :: x in cs ==> Count(cs, x) <= Count(cs, c)
  }

  /** The element of `rest` most frequent in `all`, the earlier one on a tie. */
  function MostFrequent(all: seq<int>, rest: seq<int>): (c: int)
    requires |rest| > 0
    ensures c in rest
    ensures forall x :: x in rest ==> Count(all, x) <= Count(all, c)
  {
    if |rest| == 1 then rest[0]
    else
      var b := MostFrequent(all, rest[1..]);
      assert forall x :: x in rest ==> x == rest[0] || x in rest[1..];
      if Count(all, rest[0]) >= Count(all, b) then rest[0] else b
  }

  /** `max(set(codes), key=codes.count)`: a code of maximal count. */
  function Mode(codes: seq<int>): (c: int)
    requires |codes| > 0
    ensures IsMode(codes, c)
  {
    MostFrequent(codes, codes)
  }

  /** The codes at the selected indices, `[hourly["weathercode"][i] for i in day_indices]`. */
  function CodesAt(codes: seq<int>, ks: seq<nat>): (cs: seq<int>)
    requires Reaches(codes, ks)
    ensures |cs| == |ks| && forall k :: 0 <= k < |ks| ==> cs[k] == codes[ks[k]]
  {
    seq(|ks|, k requires 0 <= k < |ks| && ks[k] < |codes| => codes[ks[k]])
  }

  predicate Reaches(codes: seq<int>, ks: seq<nat>) {
    forall k :: 0 <= k < |ks| ==> ks[k] < |codes|
  }

  /** The weather code of a morning: None without the key, otherwise a
      most frequent code among the selected readings (IndexError when the
      code series is too short). */
  function MorningCode(codes: Option<seq<int>>, ks: seq<nat>): (r: Result<Option<int>>)
    requires |ks| > 0
    ensures codes.None? ==> r == Ok(None)
    ensures codes.Some? && !Reaches(codes.value, ks) ==> r == Err(IndexOutOfRange)
    ensures codes.Some? && Reaches(codes.value, ks) ==>
      r.Ok? && r.value.Some? && IsMode(CodesAt(codes.value, ks), r.value.value)
  {
    match codes
    case None => Ok(None)
    case Some(cs) =>
      if !Reaches(cs, ks) then Err(IndexOutOfRange)
      else Ok(Some(Mode(CodesAt(cs, ks))))
  }

  /** The first selected time stamp exists and parses. */
  predicate DayKnown(h: ForecastHourly, parseTime: TimestampParser, ks: seq<nat>) {
    |ks| > 0 && ks[0] < |h.series.time| && parseTime(h.series.time[ks[0]]).Some?
  }

  /** `m` is the morning of the readings ks: the day of the first one, the
      code of MorningCode and the five means. */
  predicate Describes(h: ForecastHourly, parseTime: TimestampParser, ks: seq<nat>, m: Morning) {
    && DayKnown(h, parseTime, ks) && FetchWeather.Complete(h.series, ks)
    && m.day == parseTime(h.series.time[ks[0]]).value.day
    && MorningCode(h.weathercode, ks) == Ok(m.weathercode)
    && m.temp == Mean(FetchWeather.At(h.series.temperature, ks))
    && m.humidity == Mean(FetchWeather.At(h.series.humidity, ks))
    && m.wind == Mean(FetchWeather.At(h.series.wind, ks))
    && m.cloud == Mean(FetchWeather.At(h.series.cloud, ks))
    && m.rain == Mean(FetchWeather.At(h.series.rain, ks))
  }

  /** compute_morning_average: the date of the first index (IndexError for
      an empty list or an index past the time axis, ValueError when that
      time stamp does not parse), the weather code, then the five means in
      order, the first IndexError or TypeError standing. */
  function MorningMean(h: ForecastHourly, parseTime: TimestampParser, ks: seq<nat>): (r: Result<Morning>)
    ensures !(|ks| > 0 && ks[0] < |h.series.time|) ==> r == Err(IndexOutOfRange)
    ensures |ks| > 0 && ks[0] < |h.series.time| && !DayKnown(h, parseTime, ks) ==> r == Err(MalformedRecord)
    ensures DayKnown(h, parseTime, ks) && MorningCode(h.weathercode, ks).Err? ==> r == Err(IndexOutOfRange)
    ensures DayKnown(h, parseTime, ks) && MorningCode(h.weathercode, ks).Ok? && !FetchWeather.Complete(h.series, ks) ==>
      var means := FetchWeather.MeansOf(FetchWeather.SeriesOf(h.series), ks);
      r.Err? && means.Err? && r.error == means.error
    ensures DayKnown(h, parseTime, ks) && MorningCode(h.weathercode, ks).Ok? && FetchWeather.Complete(h.series, ks) ==>
      r.Ok? && Describes(h, parseTime, ks, r.value)
  {
    if |ks| == 0 || ks[0] >= |h.series.time| then Err(IndexOutOfRange)
    else match parseTime(h.series.time[ks[0]])
      case None => Err(MalformedRecord)
      case Some(ts) =>
        match MorningCode(h.weathercode, ks)
        case Err(e) => Err(e)
        case Ok(code) =>
          match FetchWeather.AveragesAt(h.series, parseTime, ks)
          case Err(e) => Err(e)
          case Ok(a) => Ok(Morning(a.day, a.temp, a.humidity, a.wind, a.cloud, a.rain, code))
  }

  // ----- aggregate_mornings -----

  /** Python's `sorted` on ints: insert x into an ascending list. */
  function InsertSorted(x: int, ys: seq<int>): (r: seq<int>)
    ensures |r| == |ys| + 1
    ensures forall d :: d in r <==> d == x || d in ys
  {
    if ys == [] || x <= ys[0] then [x] + ys
    else [ys[0]] + InsertSorted(x, ys[1..])
  }

  /** `sorted(xs)`, by insertion. */
  function SortInts(xs: seq<int>): (r: seq<int>)
    ensures |r| == |xs|
    ensures forall d :: d in r <==> d in xs
  {
    if xs == [] then [] else InsertSorted(xs[0], SortInts(xs[1..]))
  }

  predicate StrictlyAscending(xs: seq<int>) {
    forall a, b :: 0 <= a < b < |xs| ==> xs[a] < xs[b]
  }

  /** Inserting a new value into a strictly ascending list keeps it so. */
  lemma {:induction false} InsertSortedAscends(x: int, ys: seq<int>)
    requires StrictlyAscending(ys) && x !in ys
    ensures StrictlyAscending(InsertSorted(x, ys))
  {
    if ys != [] && x > ys[0] {
      var tail := ys[1..];
      assert forall a, b :: 0 <= a < b < |tail| ==> tail[a] == ys[a + 1] && tail[b] == ys[b + 1];
      InsertSortedAscends(x, tail);
      var r := InsertSorted(x, ys);
      var t := InsertSorted(x, tail);
      assert r == [ys[0]] + t;
      forall a, b | 0 <= a < b < |r| ensures r[a] < r[b] {
        if a == 0 {
          assert r[b] == t[b - 1] && t[b - 1] in t;
        }
      }
    }
  }

  /** Sorting distinct ints gives a strictly ascending list. */
  lemma {:induction false} SortIntsAscends(xs: seq<int>)
    requires Distinct(xs)
    ensures StrictlyAscending(SortInts(xs))
  {
    if xs != [] {
      var tail := xs[1..];
      assert forall a, b :: 0 <= a < b < |tail| ==> tail[a] == xs[a + 1] && tail[b] == xs[b + 1];
      SortIntsAscends(tail);
      assert forall k :: 0 <= k < |tail| ==> tail[k] == xs[k + 1];
      InsertSortedAscends(xs[0], SortInts(tail));
    }
  }

  /** The end of the slice `[:days]` over n items, negative bounds counting
      from the end as in Python. */
  function SliceEnd(n: nat, days: int): (e: nat)
    ensures e <= n
    ensures days >= 0 ==> e == (if days < n then days else n)
    ensures days < 0 ==> e == (if n + days > 0 then n + days else 0)
  {
    if days >= 0 then (if days < n then days else n)
    else if n + days > 0 then n + days else 0
  }

  const TargetHours: set<int> := {5, 6, 7, 8}

  /** The days aggregate_mornings reports, `sorted(grouped_indices.keys())[:days]`,
      given the keys in the dictionary's insertion order. */
  function ReportedDays(keys: seq<int>, days: int): (ds: seq<int>)
    ensures forall k :: 0 <= k < |ds| ==> ds[k] in keys
  {
    var all := SortInts(keys);
    all[..SliceEnd(|all|, days)]
  }

  /** With distinct keys, the reported days ascend; with a non-negative
      `days` there are at most `days` of them and only a full cut leaves a
      key out; and no unreported key comes before a reported one. */
  lemma ReportedDaysAreEarliest(keys: seq<int>, days: int)
    requires Distinct(keys)
    ensures var ds := ReportedDays(keys, days);
      && StrictlyAscending(ds)
      && (days >= 0 ==> |ds| <= days && forall d :: d in keys ==> d in ds || |ds| == days)
      && (forall k, d :: 0 <= k < |ds| && d in keys && d < ds[k] ==> d in ds[..k])
  {
    var all := SortInts(keys);
    var ds := ReportedDays(keys, days);
    SortIntsAscends(keys);
    assert forall k :: 0 <= k < |ds| ==> ds[k] == all[k];
    if days >= 0 && |ds| != days {
      assert ds == all;
    }
    forall k, d | 0 <= k < |ds| && d in keys && d < ds[k] ensures d in ds[..k] {
      assert d in all;
      var j :| 0 <= j < |all| && all[j] == d;
      IndexOrder(all, j, k);
      assert ds[..k][j] == d;
    }
  }

  /** In an ascending sequence a smaller value sits at a smaller index. */
  lemma IndexOrder(xs: seq<int>, a: nat, b: nat)
    requires StrictlyAscending(xs)
    requires a < |xs| && b < |xs| && xs[a] < xs[b]
    ensures a < b
  {
  }

  /** The index lists of the reported days, in order. */
  function GroupsOf(g: map<int, seq<nat>>, ds: seq<int>): (gs: seq<seq<nat>>)
    requires forall k :: 0 <= k < |ds| ==> ds[k] in g
    ensures |gs| == |ds| && forall k :: 0 <= k < |ds| ==> gs[k] == g[ds[k]]
  {
    seq(|ds|, k requires 0 <= k < |ds| => g[ds[k]])
  }

  /** compute_morning_average for one payload, as a function of the index list. */
  function MorningFn(h: ForecastHourly, parseTime: TimestampParser): seq<nat> -> Result<Morning> {
    ks => MorningMean(h, parseTime, ks)
  }

  /** aggregate_mornings: one morning per reported day, in date order; the
      first failing day aborts; ValueError when no day is reported. */
  function Mornings(h: ForecastHourly, parseTime: TimestampParser, days: int): (r: Result<seq<Morning>>)
  {
    var times := h.series.time;
    var g := Grouped(times, parseTime, TargetHours);
    KeyOrderIsKeys(times, parseTime, TargetHours);
    var ds := ReportedDays(KeyOrder(times, parseTime, TargetHours), days);
    if ds == [] then Err(NoDays) else MorningsOf(MorningFn(h, parseTime), GroupsOf(g, ds))
  }

  /** The loop of aggregate_mornings: `compute` applied to each index list
      in order, stopping at the first error. */
  function MorningsOf(compute: seq<nat> -> Result<Morning>, groups: seq<seq<nat>>): (r: Result<seq<Morning>>)
    ensures r.Ok? ==> |r.value| == |groups|
    ensures r.Ok? ==> forall k :: 0 <= k < |groups| ==> compute(groups[k]) == Ok(r.value[k])
    ensures r.Err? ==> exists k :: 0 <= k < |groups| && compute(groups[k]) == Err(r.error)
  {
    if groups == [] then Ok([])
    else
      var n := |groups| - 1;
      var init := groups[..n];
      assert forall k :: 0 <= k < n ==> init[k] == groups[k];
      match MorningsOf(compute, init)
      case Err(e) => Err(e)
      case Ok(ms) =>
        match compute(groups[n])
        case Err(e) => Err(e)
        case Ok(m) => Ok(ms + [m])
  }

  /** An error of MorningsOf on a prefix is its error on the whole list. */
  lemma {:induction false} FirstErrorStands(compute: seq<nat> -> Result<Morning>, groups: seq<seq<nat>>, j: nat)
    requires j <= |groups| && MorningsOf(compute, groups[..j]).Err?
    ensures MorningsOf(compute, groups) == MorningsOf(compute, groups[..j])
    decreases |groups|
  {
    if j < |groups| {
      var n := |groups| - 1;
      assert groups[..n][..j] == groups[..j];
      FirstErrorStands(compute, groups[..n], j);
    } else {
      assert groups[..j] == groups;
    }
  }

  /** aggregate_mornings as written: the loop over the reported days. */
  method AggregateMornings(h: ForecastHourly, parseTime: TimestampParser, days: int)
    returns (r: Result<seq<Morning>>)
    ensures r == Mornings(h, parseTime, days)
  {
    var grouped, keys := SelectIndicesForHours(h.series.time, parseTime, TargetHours);
    KeyOrderIsKeys(h.series.time, parseTime, TargetHours);
    var ds := ReportedDays(keys, days);
    ghost var compute := MorningFn(h, parseTime);
    ghost var groups := GroupsOf(grouped, ds);
    var results: seq<Morning> := [];
    var i := 0;
    while i < |ds|
      invariant 0 <= i <= |ds|
      invariant MorningsOf(compute, groups[..i]) == Ok(results)
    {
      assert groups[..i + 1][..i] == groups[..i];
      var m := MorningMean(h, parseTime, grouped[ds[i]]);
      assert compute(groups[i]) == m;
      if m.Err? {
        FirstErrorStands(compute, groups, i + 1);
        return Err(m.error);
      }
      results := results + [m.value];
      i := i + 1;
    }
    assert groups[..i] == groups;
    if results == [] {
      return Err(NoDays);
    }
    r := Ok(results);
  }

  /** The morning computed for a reported day is dated that day. */
  lemma GroupDay(h: ForecastHourly, parseTime: TimestampParser, d: int, m: Morning)
    requires var g := Grouped(h.series.time, parseTime, TargetHours);
      d in g && MorningMean(h, parseTime, g[d]) == Ok(m)
    ensures m.day == d
  {
    var g := Grouped(h.series.time, parseTime, TargetHours);
    GroupedShape(h.series.time, parseTime, TargetHours);
    GroupedIndices(h.series.time, parseTime, TargetHours, d, g[d][0]);
  }

  /** What aggregate_mornings returns: ValueError exactly when no day is
      reported; otherwise one morning per reported day, dated that day and
      summarising that day's 05:00-08:00 readings. */
  lemma {:induction false} MorningsDescribeReportedDays(h: ForecastHourly, parseTime: TimestampParser, days: int)
    ensures var r := Mornings(h, parseTime, days);
      var g := Grouped(h.series.time, parseTime, TargetHours);
      var ds := ReportedDays(KeyOrder(h.series.time, parseTime, TargetHours), days);
      && (r == Err(NoDays) <==> ds == [])
      && (r.Ok? ==> |r.value| == |ds| && forall k :: 0 <= k < |ds| ==>
            ds[k] in g && r.value[k].day == ds[k] && Describes(h, parseTime, g[ds[k]], r.value[k]))
  {
    var r := Mornings(h, parseTime, days);
    var g := Grouped(h.series.time, parseTime, TargetHours);
    KeyOrderIsKeys(h.series.time, parseTime, TargetHours);
    var ds := ReportedDays(KeyOrder(h.series.time, parseTime, TargetHours), days);
    if ds != [] {
      var groups := GroupsOf(g, ds);
      var compute := MorningFn(h, parseTime);
      if r.Err? {
        var k :| 0 <= k < |groups| && compute(groups[k]) == Err(r.error);
        assert MorningMean(h, parseTime, groups[k]).error != NoDays;
      } else {
        forall k | 0 <= k < |ds|
          ensures ds[k] in g && r.value[k].day == ds[k] && Describes(h, parseTime, g[ds[k]], r.value[k])
        {
          assert compute(groups[k]) == Ok(r.value[k]);
          GroupDay(h, parseTime, ds[k], r.value[k]);
        }
      }
    }
  }

  /** Day d has a time stamp at a target hour. */
  ghost predicate HasMorningReading(times: seq<string>, parseTime: TimestampParser, d: int) {
    exists i :: InGroup(times, parseTime, TargetHours, d, i)
  }

  /** The mornings carry the days ds, in order. */
  predicate DatedAs(ms: seq<Morning>, ds: seq<int>) {
    |ms| == |ds| && forall k :: 0 <= k < |ds| ==> ms[k].day == ds[k]
  }

  lemma MorningsDated(h: ForecastHourly, parseTime: TimestampParser, days: int)
    ensures var r := Mornings(h, parseTime, days);
      r.Ok? ==> DatedAs(r.value, ReportedDays(KeyOrder(h.series.time, parseTime, TargetHours), days))
  {
    MorningsDescribeReportedDays(h, parseTime, days);
  }

  /** The reported mornings are in strictly ascending date order, there
      are at most `days` of them, and a day with a 05:00-08:00 reading is
      left out only when it comes after every reported day. */
  lemma MorningsInDateOrder(h: ForecastHourly, parseTime: TimestampParser, days: int)
    requires days >= 0
    ensures var r := Mornings(h, parseTime, days);
      r.Ok? ==>
        && |r.value| <= days
        && (forall a, b :: 0 <= a < b < |r.value| ==> r.value[a].day < r.value[b].day)
        && (forall k, d :: (0 <= k < |r.value| && d < r.value[k].day && HasMorningReading(h.series.time, parseTime, d)) ==>
              exists j :: 0 <= j < k && r.value[j].day == d)
  {
    var r := Mornings(h, parseTime, days);
    var keys := KeyOrder(h.series.time, parseTime, TargetHours);
    var ds := ReportedDays(keys, days);
    MorningsSkipNoEarlierDay(h, parseTime, days);
    if r.Ok? {
      MorningsDated(h, parseTime, days);
      KeyOrderIsKeys(h.series.time, parseTime, TargetHours);
      ReportedDaysAreEarliest(keys, days);
      assert DatedAs(r.value, ds) && StrictlyAscending(ds) && |ds| <= days;
    }
  }

  /** A day with a morning reading is one of the grouped keys. */
  lemma MorningDayIsKey(times: seq<string>, parseTime: TimestampParser, d: int)
    requires HasMorningReading(times, parseTime, d)
    ensures d in KeyOrder(times, parseTime, TargetHours)
  {
    GroupedKeys(times, parseTime, TargetHours, d);
    KeyOrderIsKeys(times, parseTime, TargetHours);
  }

  /** No day with a morning reading is passed over before a reported one. */
  lemma MorningsSkipNoEarlierDay(h: ForecastHourly, parseTime: TimestampParser, days: int)
    requires days >= 0
    ensures var r := Mornings(h, parseTime, days);
      r.Ok? ==>
        forall k, d :: (0 <= k < |r.value| && d < r.value[k].day && HasMorningReading(h.series.time, parseTime, d)) ==>
          exists j :: 0 <= j < k && r.value[j].day == d
  {
    var r := Mornings(h, parseTime, days);
    var times := h.series.time;
    var keys := KeyOrder(times, parseTime, TargetHours);
    var ds := ReportedDays(keys, days);
    if r.Ok? {
      MorningsDated(h, parseTime, days);
      KeyOrderIsKeys(times, parseTime, TargetHours);
      forall k, d | 0 <= k < |r.value| && d < r.value[k].day && HasMorningReading(times, parseTime, d)
        ensures exists j :: 0 <= j < k && r.value[j].day == d
      {
        MorningDayIsKey(times, parseTime, d);
        var j := EarlierKeyReported(keys, days, k, d);
        assert r.value[j].day == d;
      }
    }
  }

  /** A key below the k-th reported day is reported before it. */
  lemma EarlierKeyReported(keys: seq<int>, days: int, k: int, d: int) returns (j: int)
    requires Distinct(keys) && d in keys
    requires 0 <= k < |ReportedDays(keys, days)| && d < ReportedDays(keys, days)[k]
    ensures 0 <= j < k && ReportedDays(keys, days)[j] == d
  {
    var ds := ReportedDays(keys, days);
    ReportedDaysAreEarliest(keys, days);
    assert d in ds[..k];
    j :| 0 <= j < k && ds[..k][j] == d;
  }

  // ----- fetch_hourly_forecast and main -----

  const MaxDays := 16

  /** main's argument check: `--days` must lie in 1..16. */
  function CheckDays(days: int): (r: Result<int>)
    ensures r.Ok? <==> 1 <= days <= MaxDays
    ensures r.Ok? ==> r.value == days
    ensures r.Err? ==> r.error == InvalidDays
  {
    if days < 1 || days > MaxDays then Err(InvalidDays) else Ok(days)
  }

  /** The end date fetch_hourly_forecast sends: the API counts both ends,
      so `days` days from today end at today + days - 1. */
  function EndDate(today: int, days: int): int {
    today + days - 1
  }

  /** The days from start to end, both included. */
  function DateRange(start: int, end: int): (ds: seq<int>)
    ensures |ds| == (if end >= start then end - start + 1 else 0)
    ensures forall k :: 0 <= k < |ds| ==> ds[k] == start + k
    decreases end - start
  {
    if end < start then [] else DateRange(start, end - 1) + [end]
  }

  /** The inclusive range [today, EndDate(today, days)] holds exactly the
      `days` days from today on. */
  lemma EndDateCoversDays(today: int, days: int)
    requires days >= 1
    ensures var ds := DateRange(today, EndDate(today, days));
      |ds| == days && ds[0] == today && forall d :: d in ds <==> today <= d < today + days
  {
    var ds := DateRange(today, EndDate(today, days));
    forall d | today <= d < today + days ensures d in ds {
      assert ds[d - today] == d;
    }
  }

  /** What the forecast endpoint answers for a start and an end date. */
  datatype ForecastResponse = ForecastResponse(status: int, body: ForecastHourly)
  type ForecastServer = (int, int) -> ForecastResponse

  /** fetch_hourly_forecast: one request for [today, end]; raise_for_status. */
  function FetchHourlyForecast(today: int, days: int, server: ForecastServer): (r: Result<ForecastHourly>)
    ensures var resp := server(today, EndDate(today, days));
      && (r.Err? <==> FetchWeather.Failed(resp.status))
      && (r.Err? ==> r.error == HttpError)
      && (r.Ok? ==> r.value == resp.body)
  {
    var resp := server(today, EndDate(today, days));
    if FetchWeather.Failed(resp.status) then Err(HttpError) else Ok(resp.body)
  }

  /** main without the file write: check --days, fetch, aggregate. */
  function ForecastWindow(days: int, today: int, server: ForecastServer, parseTime: TimestampParser): Result<seq<Morning>>
  {
    match CheckDays(days)
    case Err(e) => Err(e)
    case Ok(n) =>
      match FetchHourlyForecast(today, n, server)
      case Err(e) => Err(e)
      case Ok(h) => Mornings(h, parseTime, n)
  }

  /** main as written. */
  method RunForecastWindow(days: int, today: int, server: ForecastServer, parseTime: TimestampParser)
    returns (r: Result<seq<Morning>>)
    ensures r == ForecastWindow(days, today, server, parseTime)
  {
    var checked := CheckDays(days);
    if checked.Err? {
      return Err(checked.error);
    }
    var h := FetchHourlyForecast(today, days, server);
    if h.Err? {
      return Err(h.error);
    }
    r := AggregateMornings(h.value, parseTime, days);
  }

  /** A run that succeeds asked for dates 1..16 days from today and
      returns between one and `days` mornings, in date order. */
  lemma ForecastWindowBounds(days: int, today: int, server: ForecastServer, parseTime: TimestampParser)
    ensures var r := ForecastWindow(days, today, server, parseTime);
      && (!(1 <= days <= MaxDays) ==> r == Err(InvalidDays))
      && (r.Ok? ==> (1 <= |r.value| <= days <= MaxDays
                     && forall a, b :: 0 <= a < b < |r.value| ==> r.value[a].day < r.value[b].day))
  {
    var r := ForecastWindow(days, today, server, parseTime);
    if r.Ok? {
      var h := FetchHourlyForecast(today, days, server).value;
      MorningsInDateOrder(h, parseTime, days);
      MorningsDescribeReportedDays(h, parseTime, days);
    }
  }
}
