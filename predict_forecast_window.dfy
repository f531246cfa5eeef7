/** Multi-day inference (predict_forecast_window.py): forecast records become
    entries, each entry's lag comes from the previous entry (the first one's
    from the last history row), both classifiers and the event fusion run
    per day, and days already in history are overlaid with stored values. */
module PredictForecastWindow {
  import opened Common
  import opened HistoryTable
  import opened Ordering
  import PredictModel

  /** One forecast day, as the ForecastEntry dataclass holds it. */
  datatype ForecastEntry = ForecastEntry(
    date: string,
    temp: Float, humidity: Float, wind: Float, cloud: Float, rain: Float,
    weathercode: Option<int>)

  /** The five base weather values in BASE_FEATURE_COLUMNS order. */
  function Base(e: ForecastEntry): (b: seq<Float>)
    ensures |b| == 5 && b[0] == e.temp && b[1] == e.humidity && b[2] == e.wind
    ensures b[3] == e.cloud && b[4] == e.rain
  {
    [e.temp, e.humidity, e.wind, e.cloud, e.rain]
  }

  // ----- reading forecast_window.json -----

  /** int(s) for strings: None where int() raises. */
  type IntParser = string -> Option<int>

  /** int(j) for a non-null value: a number is truncated toward zero. */
  function JsonInt(j: JsonValue, parseInt: IntParser): (r: Option<int>)
    ensures j.JNum? ==> r == Some(Trunc(j.x))
    ensures j.JNull? ==> r.None?
  {
    match j
    case JNull => None
    case JBool(b) => Some(if b then 1 else 0)
    case JNum(x) => Some(Trunc(x))
    case JStr(s) => parseInt(s)
  }

  /** The keys every record must have. */
  predicate HasRecordKeys(rec: Document) {
    "date" in rec && "temp" in rec && "humidity" in rec && "wind" in rec && "cloud" in rec && "rain" in rec
  }

  /** A record's weathercode is present unless the key is absent or null. */
  predicate HasWeathercode(rec: Document) {
    "weathercode" in rec && rec["weathercode"] != JNull
  }

  /** The entry one record yields, or None where building it raises a
      KeyError, TypeError or ValueError. */
  function EntryOf(rec: Document, show: Shower, parse: TextParser, parseInt: IntParser): (e: Option<ForecastEntry>)
    ensures e.Some? <==>
      && HasRecordKeys(rec)
      && JsonFloat(rec["temp"], parse).Some? && JsonFloat(rec["humidity"], parse).Some?
      && JsonFloat(rec["wind"], parse).Some? && JsonFloat(rec["cloud"], parse).Some?
      && JsonFloat(rec["rain"], parse).Some?
      && (HasWeathercode(rec) ==> JsonInt(rec["weathercode"], parseInt).Some?)
    ensures e.Some? ==> e.value.date == JsonStr(rec["date"], show)
    ensures e.Some? ==> Some(e.value.temp) == JsonFloat(rec["temp"], parse)
    ensures e.Some? ==> Some(e.value.humidity) == JsonFloat(rec["humidity"], parse)
    ensures e.Some? ==> Some(e.value.wind) == JsonFloat(rec["wind"], parse)
    ensures e.Some? ==> Some(e.value.cloud) == JsonFloat(rec["cloud"], parse)
    ensures e.Some? ==> Some(e.value.rain) == JsonFloat(rec["rain"], parse)
    ensures e.Some? && !HasWeathercode(rec) ==> e.value.weathercode.None?
    ensures e.Some? && HasWeathercode(rec) ==> e.value.weathercode == JsonInt(rec["weathercode"], parseInt)
  {
    if !HasRecordKeys(rec) then None
    else
      var temp := JsonFloat(rec["temp"], parse);
      var humidity := JsonFloat(rec["humidity"], parse);
      var wind := JsonFloat(rec["wind"], parse);
      var cloud := JsonFloat(rec["cloud"], parse);
      var rain := JsonFloat(rec["rain"], parse);
      var code := if HasWeathercode(rec) then JsonInt(rec["weathercode"], parseInt) else Some(0);
      if temp.None? || humidity.None? || wind.None? || cloud.None? || rain.None? || code.None? then None
      else
        Some(ForecastEntry(JsonStr(rec["date"], show), temp.value, humidity.value, wind.value,
                           cloud.value, rain.value, if HasWeathercode(rec) then code else None))
  }

  /** load_forecast_entries: one entry per record, in record order; a missing
      file raises FileNotFoundError and the first bad record a ValueError. */
  method LoadForecastEntries(file: Option<seq<Document>>, show: Shower, parse: TextParser, parseInt: IntParser)
    returns (r: Result<seq<ForecastEntry>>)
    ensures file.None? ==> r == Err(FileMissing)
    ensures file.Some? ==> (r.Ok? <==> forall i :: 0 <= i < |file.value| ==> EntryOf(file.value[i], show, parse, parseInt).Some?)
    ensures file.Some? && r.Err? ==> r.error == MalformedRecord
    ensures r.Ok? ==> file.Some? && |r.value| == |file.value|
    ensures r.Ok? ==> forall i :: 0 <= i < |r.value| ==> Some(r.value[i]) == EntryOf(file.value[i], show, parse, parseInt)
  {
    if file.None? {
      return Err(FileMissing);
    }
    var records := file.value;
    var entries: seq<ForecastEntry> := [];
    var i := 0;
    while i < |records|
      invariant 0 <= i <= |records|
      invariant |entries| == i
      invariant forall k :: 0 <= k < i ==> Some(entries[k]) == EntryOf(records[k], show, parse, parseInt)
    {
      var e := EntryOf(records[i], show, parse, parseInt);
      if e.None? {
        return Err(MalformedRecord);
      }
      entries := entries + [e.value];
      i := i + 1;
    }
    r := Ok(entries);
  }

  // ----- the lag of the first day -----

  /** The rows whose date parses (those `dropna(subset=["date"])` keeps). */
  function Parsable(keys: seq<Option<int>>): (e: seq<bool>)
    ensures |e| == |keys| && forall i :: 0 <= i < |keys| ==> (e[i] <==> keys[i].Some?)
  {
    seq(|keys|, i requires 0 <= i < |keys| => keys[i].Some?)
  }

  /** `history_df.iloc[-1]` after dropping NaT dates and sorting: the latest
      dated row, whatever its date (no filter against the forecast days). */
  function TailRow(t: Table, parseDate: DateParser): (r: Option<nat>)
    requires WellFormed(t) && "date" in t.columns
    ensures r.None? <==> forall i :: 0 <= i < |t.rows| ==> DateKeys(t, parseDate)[i].None?
    ensures r.Some? ==> r.value < |t.rows| && DateKeys(t, parseDate)[r.value].Some?
    ensures r.Some? ==> forall i :: 0 <= i < |t.rows| && i != r.value && DateKeys(t, parseDate)[i].Some? ==>
      Precedes(DateKeys(t, parseDate), i, r.value)
  {
    var keys := DateKeys(t, parseDate);
    Latest(keys, Parsable(keys))
  }

  /** `float(history_tail.get(col, nan))`: a missing column reads as NaN. */
  function TailCells(t: Table, row: Row): (cs: seq<Cell>)
    ensures |cs| == 5
    ensures forall k :: 0 <= k < 5 ==> cs[k] == (if PredictModel.BaseColumns[k] in t.columns && PredictModel.BaseColumns[k] in row
                                                then row[PredictModel.BaseColumns[k]] else Blank)
  {
    seq(5, k requires 0 <= k < 5 =>
      var c := PredictModel.BaseColumns[k];
      if c in t.columns && c in row then row[c] else Blank)
  }

  /** The `prev_values` the first day starts from: None without a usable
      history file; raises when the table has no date column, when no date
      parses (iloc[-1] on an empty frame) or when a value does not convert. */
  function HistoryTail(history: Option<Table>, parseDate: DateParser, parse: TextParser): (r: Result<Option<seq<Float>>>)
    requires history.Some? ==> WellFormed(history.value)
    ensures history.None? || IsEmpty(history.value) ==> r == Ok(None)
    ensures r.Ok? && r.value.Some? ==> |r.value.value| == 5
    ensures r.Ok? && history.Some? && !IsEmpty(history.value) ==> r.value.Some?
    ensures r.Err? <==>
      && history.Some? && !IsEmpty(history.value)
      && ("date" in history.value.columns ==>
           || TailRow(history.value, parseDate).None?
           || PredictModel.FloatsOf(TailCells(history.value, history.value.rows[TailRow(history.value, parseDate).value]), parse).None?)
    ensures r.Ok? && r.value.Some? ==>
      && TailRow(history.value, parseDate).Some?
      && Some(r.value.value) == PredictModel.FloatsOf(TailCells(history.value, history.value.rows[TailRow(history.value, parseDate).value]), parse)
  {
    if history.None? || IsEmpty(history.value) then Ok(None)
    else
      var t := history.value;
      if "date" !in t.columns then Err(MissingColumns)
      else
        match TailRow(t, parseDate)
        case None => Err(IndexOutOfRange)
        case Some(j) =>
          match PredictModel.FloatsOf(TailCells(t, t.rows[j]), parse)
          case None => Err(MalformedRecord)
          case Some(vs) => Ok(Some(vs))
  }

  // ----- the feature frame -----

  /** `lag_sources`: the tail values for day 0, day k-1's base values for day k. */
  function LagSources(entries: seq<ForecastEntry>, first: Option<seq<Float>>): (ls: seq<Option<seq<Float>>>)
    ensures |ls| == |entries|
    ensures |entries| > 0 ==> ls[0] == first
    ensures forall k :: 1 <= k < |entries| ==> ls[k] == Some(Base(entries[k - 1]))
  {
    seq(|entries|, k requires 0 <= k < |entries| => if k == 0 then first else Some(Base(entries[k - 1])))
  }

  const NaNLag: seq<Float> := [NaN, NaN, NaN, NaN, NaN]

  /** One row of `lag_df`: the source's values, or all NaN for no source. */
  function LagRow(src: Option<seq<Float>>): (lag: seq<Float>)
    requires src.Some? ==> |src.value| == 5
    ensures |lag| == 5
    ensures src.None? ==> forall k :: 0 <= k < 5 ==> lag[k] == NaN
    ensures src.Some? ==> lag == src.value
  {
    if src.None? then NaNLag else src.value
  }

  /** `pd.DataFrame(lag_sources, columns=BASE_FEATURE_COLUMNS)` as written:
      pandas builds a frame from a list of dicts only when the first element
      is one; a leading None is taken as a one-column scalar array whose
      shape does not match the five columns, and the constructor raises. */
  function LagFrameAsWritten(ls: seq<Option<seq<Float>>>): (r: Result<seq<seq<Float>>>)
    requires forall k :: 0 <= k < |ls| && ls[k].Some? ==> |ls[k].value| == 5
    ensures r.Err? <==> |ls| > 0 && ls[0].None?
    ensures r.Ok? ==> r.value == LagFrame(ls)
  {
    if |ls| > 0 && ls[0].None? then Err(MalformedRecord) else Ok(LagFrame(ls))
  }

  /** The lag frame as the code evidently intends it (the model uses this
      one): a day without a lag source gets five NaN lags. */
  function LagFrame(ls: seq<Option<seq<Float>>>): (rows: seq<seq<Float>>)
    requires forall k :: 0 <= k < |ls| && ls[k].Some? ==> |ls[k].value| == 5
    ensures |rows| == |ls|
    ensures forall k :: 0 <= k < |ls| ==> rows[k] == LagRow(ls[k])
  {
    seq(|ls|, k requires 0 <= k < |ls| => LagRow(ls[k]))
  }

  /** Without a history file every forecast run fails in the lag frame as
      written, while the corrected frame gives the first day NaN lags. */
  lemma MissingHistoryRaisesAsWritten(entries: seq<ForecastEntry>)
    requires |entries| > 0
    ensures LagFrameAsWritten(LagSources(entries, None)).Err?
    ensures forall k :: 0 <= k < 5 ==> LagFrame(LagSources(entries, None))[0][k] == NaN
  {
  }

  /** One row of the returned frame: base values, lags, temp_prev_diff. */
  function FeatureRow(e: ForecastEntry, lag: seq<Float>): (row: seq<Float>)
    requires |lag| == 5
    ensures |row| == |PredictModel.FeatureColumns|
    ensures row[..5] == Base(e) && row[5..10] == lag && row[10] == Sub(lag[0], e.temp)
  {
    Base(e) + lag + [Sub(lag[0], e.temp)]
  }

  /** The frame build_feature_frame returns, one row per entry in entry
      order: day 0 lags the history tail (all NaN without one), day k lags
      day k-1, and temp_prev_diff is prev_temp - temp throughout. */
  function FeatureFrame(entries: seq<ForecastEntry>, tail: Option<seq<Float>>): (rows: seq<seq<Float>>)
    requires tail.Some? ==> |tail.value| == 5
    ensures |rows| == |entries|
    ensures forall k :: 0 <= k < |entries| ==> |rows[k]| == 11 && rows[k][..5] == Base(entries[k])
    ensures forall k :: 0 <= k < |entries| ==> rows[k][10] == Sub(rows[k][5], rows[k][0])
    ensures |entries| > 0 ==> rows[0][5..10] == LagRow(tail)
    ensures forall k :: 1 <= k < |entries| ==> rows[k][5..10] == Base(entries[k - 1])
  {
    var lags := LagFrame(LagSources(entries, tail));
    seq(|entries|, k requires 0 <= k < |entries| => FeatureRow(entries[k], lags[k]))
  }

  /** build_feature_frame: raises on no entries or a failing history tail;
      otherwise the loop carrying `prev_values` yields FeatureFrame. */
  method BuildFeatureFrame(entries: seq<ForecastEntry>, history: Option<Table>,
                           parseDate: DateParser, parse: TextParser) returns (r: Result<seq<seq<Float>>>)
    requires history.Some? ==> WellFormed(history.value)
    ensures r.Err? <==> |entries| == 0 || HistoryTail(history, parseDate, parse).Err?
    ensures |entries| == 0 ==> r == Err(NoDays)
    ensures r.Ok? ==> r.value == FeatureFrame(entries, HistoryTail(history, parseDate, parse).value)
  {
    if |entries| == 0 {
      return Err(NoDays);
    }
    var tail := HistoryTail(history, parseDate, parse);
    if tail.Err? {
      return Err(tail.error);
    }
    var rows := PropagateLags(entries, tail.value);
    r := Ok(rows);
  }

  /** The loop of build_feature_frame: each day records the current
      `prev_values` as its lag source, then hands its own base values on. */
  method PropagateLags(entries: seq<ForecastEntry>, first: Option<seq<Float>>) returns (rows: seq<seq<Float>>)
    requires first.Some? ==> |first.value| == 5
    ensures rows == FeatureFrame(entries, first)
  {
    var lagSources: seq<Option<seq<Float>>> := [];
    var prev := first;
    var i := 0;
    while i < |entries|
      invariant 0 <= i <= |entries|
      invariant |lagSources| == i
      invariant forall k :: 0 <= k < i ==> lagSources[k] == LagSources(entries, first)[k]
      invariant prev == if i == 0 then first else Some(Base(entries[i - 1]))
    {
      lagSources := lagSources + [prev];
      prev := Some(Base(entries[i]));
      i := i + 1;
    }
    assert lagSources == LagSources(entries, first);
    var lags := LagFrame(lagSources);
    rows := seq(|entries|, k requires 0 <= k < |entries| => FeatureRow(entries[k], lags[k]));
  }

  // ----- the history overlay -----

  /** `date.isoformat()` of a day number. */
  type IsoFormat = int -> string

  /** The rows whose parsed date formats to `key`. */
  function OnDay(keys: seq<Option<int>>, iso: IsoFormat, key: string): (e: seq<bool>)
    ensures |e| == |keys|
    ensures forall i :: 0 <= i < |keys| ==> (e[i] <==> keys[i].Some? && iso(keys[i].value) == key)
  {
    seq(|keys|, i requires 0 <= i < |keys| => keys[i].Some? && iso(keys[i].value) == key)
  }

  /** The dictionary comprehension of build_history_lookup over the sorted,
      de-duplicated table: for each formatted date, the row that comes last
      in date order among the rows of that date. */
  function HistoryLookup(t: Table, parseDate: DateParser, iso: IsoFormat): (m: map<string, Row>)
    requires WellFormed(t) && "date" in t.columns
    ensures forall key :: key in m <==>
      exists i :: 0 <= i < |t.rows| && DateKeys(t, parseDate)[i].Some? && iso(DateKeys(t, parseDate)[i].value) == key
    ensures forall key :: key in m ==>
      && Latest(DateKeys(t, parseDate), OnDay(DateKeys(t, parseDate), iso, key)).Some?
      && m[key] == t.rows[Latest(DateKeys(t, parseDate), OnDay(DateKeys(t, parseDate), iso, key)).value]
  {
    var keys := DateKeys(t, parseDate);
    var dom := set i | 0 <= i < |t.rows| && keys[i].Some? :: iso(keys[i].value);
    map key | key in dom :: LookupRow(t, keys, iso, key)
  }

  function LookupRow(t: Table, keys: seq<Option<int>>, iso: IsoFormat, key: string): (row: Row)
    requires |keys| == |t.rows|
    requires exists i :: 0 <= i < |t.rows| && keys[i].Some? && iso(keys[i].value) == key
    ensures Latest(keys, OnDay(keys, iso, key)).Some? && row == t.rows[Latest(keys, OnDay(keys, iso, key)).value]
  {
    var i :| 0 <= i < |t.rows| && keys[i].Some? && iso(keys[i].value) == key;
    assert OnDay(keys, iso, key)[i];
    t.rows[Latest(keys, OnDay(keys, iso, key)).value]
  }

  /** The row the lookup holds for a date is that date's latest row: every
      other row of the same date precedes it in the stable date sort. */
  lemma LookupHoldsLatestRow(t: Table, parseDate: DateParser, iso: IsoFormat, key: string)
    requires WellFormed(t) && "date" in t.columns
    requires key in HistoryLookup(t, parseDate, iso)
    ensures exists j :: (0 <= j < |t.rows|
      && HistoryLookup(t, parseDate, iso)[key] == t.rows[j]
      && DateKeys(t, parseDate)[j].Some? && iso(DateKeys(t, parseDate)[j].value) == key
      && forall i :: (0 <= i < |t.rows| && i != j && DateKeys(t, parseDate)[i].Some?
                      && iso(DateKeys(t, parseDate)[i].value) == key) ==> Precedes(DateKeys(t, parseDate), i, j))
  {
    var keys := DateKeys(t, parseDate);
    var j := Latest(keys, OnDay(keys, iso, key)).value;
    assert OnDay(keys, iso, key)[j];
    forall i | 0 <= i < |t.rows| && i != j && keys[i].Some? && iso(keys[i].value) == key
      ensures Precedes(keys, i, j)
    {
      assert OnDay(keys, iso, key)[i];
    }
  }

  /** build_history_lookup: empty without a usable history file; a table
      without a date column raises a KeyError. */
  function BuildHistoryLookup(history: Option<Table>, parseDate: DateParser, iso: IsoFormat): (r: Result<map<string, Row>>)
    requires history.Some? ==> WellFormed(history.value)
    ensures history.None? || IsEmpty(history.value) ==> r == Ok(map[])
    ensures r.Err? <==> history.Some? && !IsEmpty(history.value) && "date" !in history.value.columns
    ensures r.Ok? && history.Some? && !IsEmpty(history.value) ==> r.value == HistoryLookup(history.value, parseDate, iso)
  {
    if history.None? || IsEmpty(history.value) then Ok(map[])
    else if "date" !in history.value.columns then Err(MissingColumns)
    else Ok(HistoryLookup(history.value, parseDate, iso))
  }

  /** `d.get(key)` on a dictionary (a row, or the history lookup): None for
      a key it does not have. */
  function MapGet<K, V>(d: map<K, V>, key: K): (v: Option<V>)
    ensures v.Some? <==> key in d
    ensures v.Some? ==> v.value == d[key]
  {
    if key in d then Some(d[key]) else None
  }

  /** safe_float(value, default): the default for None, for a missing value
      and for anything float() rejects; float(value) otherwise (a string
      that float() reads as NaN stays NaN). */
  function SafeFloat(v: Option<Cell>, default: Float, parse: TextParser): (f: Float)
    ensures v.None? || v == Some(Blank) ==> f == default
    ensures v.Some? && FloatOf(v.value, parse).None? ==> f == default
    ensures v.Some? && v.value != Blank && FloatOf(v.value, parse).Some? ==> f == FloatOf(v.value, parse).value
  {
    if v.None? || v.value == Blank then default
    else match FloatOf(v.value, parse)
      case None => default
      case Some(x) => x
  }

  /** A value safe_float accepts does not depend on the default, so applying
      it twice with the same stored value changes nothing. */
  lemma SafeFloatIdempotent(v: Option<Cell>, d: Float, parse: TextParser)
    ensures SafeFloat(v, SafeFloat(v, d, parse), parse) == SafeFloat(v, d, parse)
  {
  }

  /** determine_event of this module: the calibrated policy only; a NaN
      compares false. The castle probability is accepted and ignored. */
  function DetermineEvent(fog: Float, castle: Float, event: Float): (l: Label)
    ensures l == Castle <==> AtLeast(event, 0.5)
    ensures l == FogOnly <==> !AtLeast(event, 0.5) && AtLeast(fog, 0.5)
    ensures l == NoEvent <==> !AtLeast(event, 0.5) && !AtLeast(fog, 0.5)
  {
    if AtLeast(event, 0.5) then Castle
    else if AtLeast(fog, 0.5) then FogOnly
    else NoEvent
  }

  /** On real probabilities the two modules' calibrated policies agree. */
  lemma DetermineEventAgrees(fog: real, castle: real, event: real)
    ensures DetermineEvent(Real(fog), Real(castle), Real(event)) == PredictModel.DetermineEvent(fog, castle, Some(event))
  {
  }

  /** The dictionary each day yields. */
  datatype Payload = Payload(
    date: string,
    temp: Float, humidity: Float, wind: Float, cloud: Float, rain: Float,
    weathercode: Option<int>,
    fogProbability: Float, castleProbability: Float, eventProbability: Float,
    event: string)

  /** `base_payload`: the entry's weather, the model outputs and the label. */
  function Predicted(e: ForecastEntry, fog: Prob, castle: Prob, event: Prob): (p: Payload)
    ensures p.date == e.date && p.weathercode == e.weathercode
    ensures [p.temp, p.humidity, p.wind, p.cloud, p.rain] == Base(e)
    ensures p.fogProbability == Real(fog) && p.castleProbability == Real(castle) && p.eventProbability == Real(event)
    ensures p.event == PredictModel.DetermineEvent(fog, castle, Some(event)).Name()
  {
    DetermineEventAgrees(fog, castle, event);
    Payload(e.date, e.temp, e.humidity, e.wind, e.cloud, e.rain, e.weathercode,
            Real(fog), Real(castle), Real(event), DetermineEvent(Real(fog), Real(castle), Real(event)).Name())
  }

  /** A stored event label that wins over the predicted one. */
  predicate StoredEvent(row: Row) {
    "event" in row && row["event"].Text? && NonBlank(row["event"].s)
  }

  /** The overlay for one day: without a stored row the payload is
      unchanged; with one, each numeric field takes the stored value when
      safe_float accepts it, and the event is the stored label when it is
      a non-blank string, else the label recomputed from the overlaid
      probabilities. The date and weathercode are never touched. */
  function Overlay(p: Payload, row: Option<Row>, parse: TextParser): (q: Payload)
    ensures row.None? ==> q == p
    ensures q.date == p.date && q.weathercode == p.weathercode
    ensures row.Some? ==> q.temp == SafeFloat(MapGet(row.value, "temp"), p.temp, parse)
    ensures row.Some? ==> q.humidity == SafeFloat(MapGet(row.value, "humidity"), p.humidity, parse)
    ensures row.Some? ==> q.wind == SafeFloat(MapGet(row.value, "wind"), p.wind, parse)
    ensures row.Some? ==> q.cloud == SafeFloat(MapGet(row.value, "cloud"), p.cloud, parse)
    ensures row.Some? ==> q.rain == SafeFloat(MapGet(row.value, "rain"), p.rain, parse)
    ensures row.Some? ==> q.fogProbability == SafeFloat(MapGet(row.value, "fog_probability"), p.fogProbability, parse)
    ensures row.Some? ==> q.castleProbability == SafeFloat(MapGet(row.value, "castle_probability"), p.castleProbability, parse)
    ensures row.Some? ==> q.eventProbability == SafeFloat(MapGet(row.value, "castle_event_probability"), p.eventProbability, parse)
    ensures row.Some? && StoredEvent(row.value) ==> q.event == row.value["event"].s
    ensures row.Some? && !StoredEvent(row.value) ==>
      q.event == DetermineEvent(q.fogProbability, q.castleProbability, q.eventProbability).Name()
  {
    if row.None? then p
    else
      var r := row.value;
      var fog := SafeFloat(MapGet(r, "fog_probability"), p.fogProbability, parse);
      var castle := SafeFloat(MapGet(r, "castle_probability"), p.castleProbability, parse);
      var event := SafeFloat(MapGet(r, "castle_event_probability"), p.eventProbability, parse);
      p.(temp := SafeFloat(MapGet(r, "temp"), p.temp, parse),
         humidity := SafeFloat(MapGet(r, "humidity"), p.humidity, parse),
         wind := SafeFloat(MapGet(r, "wind"), p.wind, parse),
         cloud := SafeFloat(MapGet(r, "cloud"), p.cloud, parse),
         rain := SafeFloat(MapGet(r, "rain"), p.rain, parse),
         fogProbability := fog, castleProbability := castle, eventProbability := event,
         event := if StoredEvent(r) then r["event"].s else DetermineEvent(fog, castle, event).Name())
  }

  /** Overlaying the same stored row twice is the same as once. */
  lemma OverlayIdempotent(p: Payload, row: Option<Row>, parse: TextParser)
    ensures Overlay(Overlay(p, row, parse), row, parse) == Overlay(p, row, parse)
  {
    if row.Some? {
      var q := Overlay(p, row, parse);
      var r := row.value;
      SafeFloatIdempotent(MapGet(r, "fog_probability"), p.fogProbability, parse);
      SafeFloatIdempotent(MapGet(r, "castle_probability"), p.castleProbability, parse);
      SafeFloatIdempotent(MapGet(r, "castle_event_probability"), p.eventProbability, parse);
      SafeFloatIdempotent(MapGet(r, "temp"), p.temp, parse);
      SafeFloatIdempotent(MapGet(r, "humidity"), p.humidity, parse);
      SafeFloatIdempotent(MapGet(r, "wind"), p.wind, parse);
      SafeFloatIdempotent(MapGet(r, "cloud"), p.cloud, parse);
      SafeFloatIdempotent(MapGet(r, "rain"), p.rain, parse);
    }
  }

  /** A stored row whose numeric cells are all missing and whose event is
      blank leaves a predicted payload exactly as it was. */
  lemma BlankRowKeepsPrediction(e: ForecastEntry, fog: Prob, castle: Prob, event: Prob, row: Row, parse: TextParser)
    requires forall k :: k in row && k != "date" ==> row[k] == Blank
    ensures Overlay(Predicted(e, fog, castle, event), Some(row), parse) == Predicted(e, fog, castle, event)
  {
    DetermineEventAgrees(fog, castle, event);
  }

  /** A stored label made only of Unicode spaces is empty once stripped, so
      the label is recomputed from the overlaid probabilities. */
  lemma WhitespaceEventRecomputed(p: Payload, row: Row, parse: TextParser)
    requires "event" in row && row["event"] == Text("\U{3000}\U{00A0}\t")
    ensures var q := Overlay(p, Some(row), parse);
      q.event == DetermineEvent(q.fogProbability, q.castleProbability, q.eventProbability).Name()
  {
    var s := row["event"].s;
    assert forall i :: 0 <= i < |s| ==> IsSpace(s[i]);
  }

  /** The payload run_prediction produces for day k. */
  function DayResult(entries: seq<ForecastEntry>, frame: seq<seq<Float>>, k: nat,
                     fogModel: Classifier, castleModel: Classifier,
                     calibrator: Option<PredictModel.CalibratorArtifact>,
                     lookup: map<string, Row>, parse: TextParser): (p: Payload)
    requires k < |entries| && |frame| == |entries|
    requires calibrator.Some? ==> !PredictModel.HasUnknownName(calibrator.value)
    ensures p.date == entries[k].date && p.weathercode == entries[k].weathercode
  {
    var fog := fogModel(frame[k]);
    var castle := castleModel(frame[k]);
    var event := PredictModel.ComputeEventProbability(fog, castle, calibrator).value;
    Overlay(Predicted(entries[k], fog, castle, event), MapGet(lookup, entries[k].date), parse)
  }

  /** run_prediction: models first (FileNotFoundError), then the feature
      frame, the history lookup and, per day in entry order, the fused
      probabilities and the overlay. */
  method RunPrediction(entries: seq<ForecastEntry>, history: Option<Table>,
                       fogModel: Option<Classifier>, castleModel: Option<Classifier>,
                       calibrator: Option<PredictModel.CalibratorArtifact>,
                       parseDate: DateParser, parse: TextParser, iso: IsoFormat)
    returns (r: Result<seq<Payload>>)
    requires history.Some? ==> WellFormed(history.value)
    ensures fogModel.None? || castleModel.None? ==> r == Err(FileMissing)
    ensures r.Err? <==>
      || fogModel.None? || castleModel.None?
      || |entries| == 0 || HistoryTail(history, parseDate, parse).Err?
      || (calibrator.Some? && PredictModel.HasUnknownName(calibrator.value))
    ensures r.Ok? ==> |r.value| == |entries|
    ensures r.Ok? ==>
      var frame := FeatureFrame(entries, HistoryTail(history, parseDate, parse).value);
      var lookup := BuildHistoryLookup(history, parseDate, iso).value;
      forall k :: 0 <= k < |entries| ==>
        r.value[k] == DayResult(entries, frame, k, fogModel.value, castleModel.value, calibrator, lookup, parse)
  {
    if fogModel.None? || castleModel.None? {
      return Err(FileMissing);
    }
    var frame := BuildFeatureFrame(entries, history, parseDate, parse);
    if frame.Err? {
      return Err(frame.error);
    }
    // A table without a date column already failed in build_feature_frame.
    var lookup := BuildHistoryLookup(history, parseDate, iso);
    r := PredictDays(entries, frame.value, fogModel.value, castleModel.value, calibrator, lookup.value, parse);
  }

  /** The loop of run_prediction over the days and their feature rows. */
  method PredictDays(entries: seq<ForecastEntry>, rows: seq<seq<Float>>,
                     fogModel: Classifier, castleModel: Classifier,
                     calibrator: Option<PredictModel.CalibratorArtifact>,
                     lookup: map<string, Row>, parse: TextParser) returns (r: Result<seq<Payload>>)
    requires |rows| == |entries|
    ensures r.Err? <==> |entries| > 0 && calibrator.Some? && PredictModel.HasUnknownName(calibrator.value)
    ensures r.Ok? ==> |r.value| == |entries|
    ensures r.Ok? ==> forall k :: 0 <= k < |entries| ==>
      r.value[k] == DayResult(entries, rows, k, fogModel, castleModel, calibrator, lookup, parse)
  {
    var results: seq<Payload> := [];
    var i := 0;
    while i < |entries|
      invariant 0 <= i <= |entries|
      invariant |results| == i
      invariant i > 0 && calibrator.Some? ==> !PredictModel.HasUnknownName(calibrator.value)
      invariant forall k :: 0 <= k < i ==>
        results[k] == DayResult(entries, rows, k, fogModel, castleModel, calibrator, lookup, parse)
    {
      var fog := fogModel(rows[i]);
      var castle := castleModel(rows[i]);
      var event := PredictModel.ComputeEventProbability(fog, castle, calibrator);
      if event.Err? {
        return Err(event.error);
      }
      var payload := Predicted(entries[i], fog, castle, event.value);
      var stored := MapGet(lookup, entries[i].date);
      if stored.Some? {
        var row := stored.value;
        var actualFog := SafeFloat(MapGet(row, "fog_probability"), payload.fogProbability, parse);
        var actualCastle := SafeFloat(MapGet(row, "castle_probability"), payload.castleProbability, parse);
        var actualEvent := SafeFloat(MapGet(row, "castle_event_probability"), payload.eventProbability, parse);
        payload := payload.(
          temp := SafeFloat(MapGet(row, "temp"), payload.temp, parse),
          humidity := SafeFloat(MapGet(row, "humidity"), payload.humidity, parse),
          wind := SafeFloat(MapGet(row, "wind"), payload.wind, parse),
          cloud := SafeFloat(MapGet(row, "cloud"), payload.cloud, parse),
          rain := SafeFloat(MapGet(row, "rain"), payload.rain, parse),
          fogProbability := actualFog, castleProbability := actualCastle, eventProbability := actualEvent);
        if StoredEvent(row) {
          payload := payload.(event := row["event"].s);
        } else {
          payload := payload.(event := DetermineEvent(actualFog, actualCastle, actualEvent).Name());
        }
      }
      results := results + [payload];
      i := i + 1;
    }
    r := Ok(results);
  }
}
