/** Single-day inference (predict_model.py): the feature vector for the
    latest reading with its lag taken from history, the two classifiers, the
    optional event calibrator with its product fallback, the label policies,
    and the merge of the result into feed.json. */
module PredictModel {
  import opened Common
  import opened HistoryTable
  import opened Ordering

  const BaseColumns: seq<string> := ["temp", "humidity", "wind", "cloud", "rain"]
  const LagColumns: seq<string> :=
    ["prev_temp", "prev_humidity", "prev_wind", "prev_cloud", "prev_rain", "temp_prev_diff"]
  /** The column order every classifier is trained and queried with. */
  const FeatureColumns: seq<string> := BaseColumns + LagColumns
  const CalibratorColumns: seq<string> := ["fog_probability", "castle_probability", "fog_castle_product"]

  lemma FeatureColumnsDistinct()
    ensures |FeatureColumns| == 11 && Distinct(FeatureColumns)
  {
  }

  // ----- the lag source -----

  /** The cells of the five weather columns of a row. */
  function BaseCells(row: Row): (cs: seq<Cell>)
    requires forall c :: c in BaseColumns ==> c in row
    ensures |cs| == 5 && forall k :: 0 <= k < 5 ==> cs[k] == row[BaseColumns[k]]
  {
    [row["temp"], row["humidity"], row["wind"], row["cloud"], row["rain"]]
  }

  /** A row survives `dropna(subset=BASE_FEATURE_COLUMNS, how="all")`. */
  predicate HasSomeWeather(row: Row)
    requires forall c :: c in BaseColumns ==> c in row
  {
    exists k :: 0 <= k < 5 && BaseCells(row)[k] != Blank
  }

  predicate HasLagColumns(t: Table) {
    forall c :: c in BaseColumns + ["date"] ==> c in t.columns
  }

  /** The rows load_previous_features may pick: some weather, a parsable
      date, and that date strictly before the target. */
  function EligibleBefore(t: Table, target: int, parseDate: DateParser): (e: seq<bool>)
    requires WellFormed(t) && HasLagColumns(t)
    ensures |e| == |t.rows|
    ensures forall i :: 0 <= i < |t.rows| ==>
      (e[i] <==> HasSomeWeather(t.rows[i]) && DateLt(DateOf(t.rows[i]["date"], parseDate), Some(target)))
  {
    seq(|t.rows|, i requires 0 <= i < |t.rows| =>
      HasSomeWeather(t.rows[i]) && DateLt(DateOf(t.rows[i]["date"], parseDate), Some(target)))
  }

  /** The row `prev_rows.iloc[-1]` selects: the latest eligible row in date
      order (on equal dates, the last in file order). */
  function PreviousRow(t: Table, target: int, parseDate: DateParser): (r: Option<nat>)
    requires WellFormed(t) && HasLagColumns(t)
    ensures r.Some? ==> r.value < |t.rows|
    ensures r.Some? ==> HasSomeWeather(t.rows[r.value])
    ensures r.Some? ==> DateLt(DateOf(t.rows[r.value]["date"], parseDate), Some(target))
    ensures r.Some? ==> forall i :: 0 <= i < |t.rows| && i != r.value && EligibleBefore(t, target, parseDate)[i] ==>
      DateLe(DateOf(t.rows[i]["date"], parseDate), DateOf(t.rows[r.value]["date"], parseDate))
      && (DateOf(t.rows[i]["date"], parseDate) == DateOf(t.rows[r.value]["date"], parseDate) ==> i < r.value)
    ensures r.None? <==> forall i :: 0 <= i < |t.rows| ==>
      !(HasSomeWeather(t.rows[i]) && DateLt(DateOf(t.rows[i]["date"], parseDate), Some(target)))
  {
    var keys := DateKeys(t, parseDate);
    Latest(keys, EligibleBefore(t, target, parseDate))
  }

  /** float() of each of the five cells, or None if any raises. */
  function FloatsOf(cs: seq<Cell>, parse: TextParser): (r: Option<seq<Float>>)
    ensures r.Some? <==> forall k :: 0 <= k < |cs| ==> FloatOf(cs[k], parse).Some?
    ensures r.Some? ==> |r.value| == |cs| && forall k :: 0 <= k < |cs| ==> Some(r.value[k]) == FloatOf(cs[k], parse)
  {
    if cs == [] then Some([])
    else
      match (FloatOf(cs[0], parse), FloatsOf(cs[1..], parse))
      case (Some(f), Some(fs)) =>
        assert forall k :: 1 <= k < |cs| ==> cs[1..][k - 1] == cs[k];
        Some([f] + fs)
      case _ =>
        assert forall k :: 1 <= k < |cs| ==> cs[1..][k - 1] == cs[k];
        None
  }

  /** The strings `pd.to_datetime` reads as NaT rather than rejecting:
      the empty string and the spellings of NaT and NaN (`str` of a missing
      date is "nan"). */
  predicate NaTText(s: string) {
    s in {"", "NaT", "nat", "NAT", "nan", "NaN", "NAN"}
  }

  /** load_previous_features: the weather of the latest history row strictly
      before `currentDate`, or None when the file is missing or empty, when
      the target date is NaT (no date is before it), when no row qualifies,
      or when a value of that row does not convert. */
  function LoadPreviousFeatures(history: Option<Table>, currentDate: string,
                                parseDate: DateParser, parse: TextParser): (r: Result<Option<seq<Float>>>)
    requires history.Some? ==> WellFormed(history.value)
    ensures history.None? ==> r == Ok(None)
    ensures history.Some? && IsEmpty(history.value) ==> r == Ok(None)
    ensures r.Err? ==> history.Some? && !IsEmpty(history.value)
    ensures r.Err? <==> history.Some? && !IsEmpty(history.value) &&
                        (!HasLagColumns(history.value) || (!NaTText(currentDate) && parseDate(currentDate).None?))
    ensures history.Some? && !IsEmpty(history.value) && HasLagColumns(history.value) && NaTText(currentDate) ==>
      r == Ok(None)
    ensures r.Ok? && r.value.Some? ==>
      var t := history.value;
      && HasLagColumns(t) && !NaTText(currentDate) && parseDate(currentDate).Some?
      && PreviousRow(t, parseDate(currentDate).value, parseDate).Some?
      && Some(r.value.value) == FloatsOf(BaseCells(t.rows[PreviousRow(t, parseDate(currentDate).value, parseDate).value]), parse)
    ensures r.Ok? && r.value.Some? ==> |r.value.value| == 5
    ensures r == Ok(None) ==>
      || history.None? || IsEmpty(history.value) || NaTText(currentDate)
      || var t := history.value;
         var target := parseDate(currentDate).value;
         || PreviousRow(t, target, parseDate).None?
         || FloatsOf(BaseCells(t.rows[PreviousRow(t, target, parseDate).value]), parse).None?
  {
    if history.None? then Ok(None)
    else
      var t := history.value;
      if IsEmpty(t) then Ok(None)
      else if !HasLagColumns(t) then Err(MissingColumns)
      else if NaTText(currentDate) then Ok(None)
      else if parseDate(currentDate).None? then Err(MalformedRecord)
      else
        match PreviousRow(t, parseDate(currentDate).value, parseDate)
        case None => Ok(None)
        case Some(j) => Ok(FloatsOf(BaseCells(t.rows[j]), parse))
  }

  // ----- the feature vector -----

  /** The eleven features in FeatureColumns order: the five base values,
      then with a lag source its five values and prev_temp - temp, without
      one six NaN. */
  function FeatureVector(b: seq<Float>, previous: Option<seq<Float>>): (row: seq<Float>)
    requires |b| == 5
    requires previous.Some? ==> |previous.value| == 5
    ensures |row| == |FeatureColumns|
    ensures row[..5] == b
    ensures previous.None? ==> forall k :: 5 <= k < 11 ==> row[k] == NaN
    ensures previous.Some? ==> row[5..10] == previous.value && row[10] == Sub(previous.value[0], b[0])
  {
    match previous
    case None => b + [NaN, NaN, NaN, NaN, NaN, NaN]
    case Some(lag) => b + lag + [Sub(lag[0], b[0])]
  }

  /** build_feature_frame on a reading: a ValueError when a reading value
      does not convert, the error of load_previous_features, otherwise the
      feature vector of the reading's floats and the lag source. */
  function SingleDayFeatures(date: string, reading: seq<Cell>, history: Option<Table>,
                             parseDate: DateParser, parse: TextParser): (r: Result<seq<Float>>)
    requires |reading| == 5
    requires history.Some? ==> WellFormed(history.value)
    ensures r.Err? <==> FloatsOf(reading, parse).None? || LoadPreviousFeatures(history, date, parseDate, parse).Err?
    ensures r.Ok? ==> |r.value| == |FeatureColumns|
    ensures r.Ok? ==> forall k :: 0 <= k < 5 ==> Some(r.value[k]) == FloatOf(reading[k], parse)
    ensures r.Ok? && LoadPreviousFeatures(history, date, parseDate, parse) == Ok(None) ==>
      forall k :: 5 <= k < 11 ==> r.value[k] == NaN
    ensures r.Ok? && LoadPreviousFeatures(history, date, parseDate, parse).value.Some? ==>
      var lag := LoadPreviousFeatures(history, date, parseDate, parse).value.value;
      (forall k :: 0 <= k < 5 ==> r.value[5 + k] == lag[k]) && r.value[10] == Sub(lag[0], r.value[0])
  {
    match FloatsOf(reading, parse)
    case None => Err(MalformedRecord)
    case Some(b) =>
      match LoadPreviousFeatures(history, date, parseDate, parse)
      case Err(e) => Err(e)
      case Ok(previous) =>
        var row := FeatureVector(b, previous);
        assert forall k :: 0 <= k < 5 ==> row[k] == row[..5][k];
        assert previous.Some? ==> forall k :: 0 <= k < 5 ==> row[5 + k] == row[5..10][k];
        Ok(row)
  }

  /** build_feature_frame as written: the base floats, the lag source, then
      the dictionary filled by FillFeatures. */
  method BuildFeatureFrame(date: string, reading: seq<Cell>, history: Option<Table>,
                           parseDate: DateParser, parse: TextParser) returns (r: Result<seq<Float>>)
    requires |reading| == 5
    requires history.Some? ==> WellFormed(history.value)
    ensures r == SingleDayFeatures(date, reading, history, parseDate, parse)
  {
    var base := FloatsOf(reading, parse);
    if base.None? {
      return Err(MalformedRecord);
    }
    var previous := LoadPreviousFeatures(history, date, parseDate, parse);
    if previous.Err? {
      return Err(previous.error);
    }
    var features := FillFeatures(base.value, previous.value);
    r := Ok(features);
  }

  /** The dictionary build_feature_frame fills, read out in FeatureColumns
      order. */
  method FillFeatures(b: seq<Float>, previous: Option<seq<Float>>) returns (row: seq<Float>)
    requires |b| == 5
    requires previous.Some? ==> |previous.value| == 5
    ensures row == FeatureVector(b, previous)
  {
    var features: map<string, Float> :=
      map["temp" := b[0], "humidity" := b[1], "wind" := b[2], "cloud" := b[3], "rain" := b[4]];
    if previous.None? {
      features := features["prev_temp" := NaN]["prev_humidity" := NaN]["prev_wind" := NaN]
                          ["prev_cloud" := NaN]["prev_rain" := NaN];
      features := features["temp_prev_diff" := NaN];
    } else {
      var lag := previous.value;
      features := features["prev_temp" := lag[0]]["prev_humidity" := lag[1]]["prev_wind" := lag[2]]
                          ["prev_cloud" := lag[3]]["prev_rain" := lag[4]];
      features := features["temp_prev_diff" := Sub(features["prev_temp"], features["temp"])];
    }
    row := [features["temp"], features["humidity"], features["wind"], features["cloud"], features["rain"],
            features["prev_temp"], features["prev_humidity"], features["prev_wind"], features["prev_cloud"],
            features["prev_rain"], features["temp_prev_diff"]];
  }

  // ----- probability fusion -----

  /** A fitted calibrator's positive-class probability, or None when
      predict_proba raises. */
  type CalibrationModel = seq<real> -> Option<Prob>

  /** The calibrator file's payload: `model` and `feature_names`, either of
      which may be absent from it. */
  datatype CalibratorArtifact = CalibratorArtifact(model: Option<CalibrationModel>, featureNames: Option<seq<string>>)

  /** build_calibrator_features: the three named calibrator inputs. */
  function CalibratorFeatures(fog: real, castle: real): (m: map<string, real>)
    ensures m.Keys == set c | c in CalibratorColumns
    ensures m["fog_probability"] == fog && m["castle_probability"] == castle
    ensures m["fog_castle_product"] == fog * castle
  {
    map["fog_probability" := fog, "castle_probability" := castle, "fog_castle_product" := fog * castle]
  }

  /** `frame[names]`: the named columns in the given order, or a KeyError. */
  function SelectColumns(m: map<string, real>, names: seq<string>): (r: Result<seq<real>>)
    ensures r.Ok? <==> forall i :: 0 <= i < |names| ==> names[i] in m
    ensures r.Err? ==> r.error == MissingColumns
    ensures r.Ok? ==> |r.value| == |names| && forall i :: 0 <= i < |names| ==> r.value[i] == m[names[i]]
  {
    if forall i :: 0 <= i < |names| ==> names[i] in m then
      Ok(seq(|names|, i requires 0 <= i < |names| => m[names[i]]))
    else Err(MissingColumns)
  }

  /** The feature order a calibrator payload asks for (default: the training order). */
  function NamesOf(a: CalibratorArtifact): seq<string> {
    if a.featureNames.Some? then a.featureNames.value else CalibratorColumns
  }

  /** A stored feature name that build_calibrator_features does not produce:
      selecting it raises a KeyError. */
  predicate HasUnknownName(a: CalibratorArtifact) {
    exists i :: 0 <= i < |NamesOf(a)| && NamesOf(a)[i] !in CalibratorColumns
  }

  /** compute_event_probability: the calibrator's output on its inputs in
      the stored order; the product fog * castle when there is no calibrator
      or when calling it raises. An unknown stored feature name raises before
      the protected call. */
  function ComputeEventProbability(fog: Prob, castle: Prob, calibrator: Option<CalibratorArtifact>): (r: Result<Prob>)
    ensures calibrator.None? ==> r == Ok(fog * castle)
    ensures r.Err? <==> calibrator.Some? && HasUnknownName(calibrator.value)
    ensures r.Err? ==> r.error == MissingColumns
    ensures r.Ok? && calibrator.Some? ==>
      var input := SelectColumns(CalibratorFeatures(fog, castle), NamesOf(calibrator.value)).value;
      var model := calibrator.value.model;
      if model.Some? && model.value(input).Some? then r.value == model.value(input).value
      else r.value == fog * castle
  {
    if calibrator.None? then Ok(Product(fog, castle))
    else
      var names := NamesOf(calibrator.value);
      match SelectColumns(CalibratorFeatures(fog, castle), names)
      case Err(e) => Err(e)
      case Ok(input) =>
        var model := calibrator.value.model;
        if model.Some? && model.value(input).Some? then Ok(model.value(input).value)
        else Ok(Product(fog, castle))
  }

  /** fog * castle, itself a probability. */
  function Product(fog: Prob, castle: Prob): (p: Prob)
    ensures p == fog * castle
  {
    ProductBounds(fog, castle);
    fog * castle
  }

  lemma ProductBounds(a: real, b: real)
    requires 0.0 <= a <= 1.0 && 0.0 <= b <= 1.0
    ensures 0.0 <= a * b <= b
  {
    assert b - a * b == (1.0 - a) * b;
  }

  // ----- the label policies -----

  /** determine_event: with an event probability the calibrated policy
      (Castle iff event >= 0.5), without one the legacy policy (Castle iff
      fog >= 0.7 and castle >= 0.6); either way then FogOnly iff fog >= 0.5. */
  function DetermineEvent(fog: real, castle: real, event: Option<real>): (l: Label)
    ensures event.Some? ==> (l == Castle <==> event.value >= 0.5)
    ensures event.None? ==> (l == Castle <==> fog >= 0.7 && castle >= 0.6)
    ensures l == FogOnly <==> l != Castle && fog >= 0.5
    ensures l == NoEvent <==> l != Castle && fog < 0.5
  {
    if event.Some? then
      if event.value >= 0.5 then Castle
      else if fog >= 0.5 then FogOnly
      else NoEvent
    else
      if fog >= 0.7 && castle >= 0.6 then Castle
      else if fog >= 0.5 then FogOnly
      else NoEvent
  }

  /** Under the calibrated policy the castle probability is not consulted. */
  lemma CalibratedIgnoresCastle(fog: real, c1: real, c2: real, event: real)
    ensures DetermineEvent(fog, c1, Some(event)) == DetermineEvent(fog, c2, Some(event))
  {
  }

  /** The product fallback with fog 0.8 and castle 0.7 yields 0.56 and Castle. */
  lemma ProductFallbackExample()
    ensures ComputeEventProbability(0.8, 0.7, None) == Ok(0.56)
    ensures DetermineEvent(0.8, 0.7, Some(0.56)) == Castle
  {
  }

  // ----- the feed document -----

  /** The keys update_feed writes. */
  const FeedKeys: set<string> :=
    {"date", "fog_probability", "castle_probability", "castle_event_probability", "event"}

  /** update_feed: the existing document (if any) with date, the three
      probabilities and the calibrated-policy event overwritten; every other
      key of the existing document is kept. */
  function UpdateFeed(existing: Option<Document>, date: string, fog: real, castle: real, event: real): (doc: Document)
    ensures doc.Keys == FeedKeys + (if existing.Some? then existing.value.Keys else {})
    ensures existing.Some? ==> forall k :: k in existing.value && k !in FeedKeys ==> doc[k] == existing.value[k]
    ensures doc["date"] == JStr(date)
    ensures doc["fog_probability"] == JNum(fog) && doc["castle_probability"] == JNum(castle)
    ensures doc["castle_event_probability"] == JNum(event)
    ensures doc["event"] == JStr(DetermineEvent(fog, castle, Some(event)).Name())
  {
    var payload := map[
      "date" := JStr(date),
      "fog_probability" := JNum(fog),
      "castle_probability" := JNum(castle),
      "castle_event_probability" := JNum(event),
      "event" := JStr(DetermineEvent(fog, castle, Some(event)).Name())];
    if existing.Some? then existing.value + payload else payload
  }

  /** predict_model.main: features, both classifiers, fusion, feed merge.
      A feature error is raised first; then missing classifier files abort
      before any probability is computed; then an unknown calibrator column
      raises. Otherwise the feed holds both classifiers' outputs on the
      feature vector and the fused event probability. */
  method PredictSingleDay(date: string, reading: seq<Cell>, history: Option<Table>,
                          fogModel: Option<Classifier>, castleModel: Option<Classifier>,
                          calibrator: Option<CalibratorArtifact>, feed: Option<Document>,
                          parseDate: DateParser, parse: TextParser) returns (r: Result<Document>)
    requires |reading| == 5
    requires history.Some? ==> WellFormed(history.value)
    ensures var fv := SingleDayFeatures(date, reading, history, parseDate, parse);
      && (fv.Err? ==> r == Err(fv.error))
      && (fv.Ok? && (fogModel.None? || castleModel.None?) ==> r == Err(FileMissing))
      && (r.Err? <==> fv.Err? || fogModel.None? || castleModel.None? ||
                      (calibrator.Some? && HasUnknownName(calibrator.value)))
      && (r.Ok? ==>
            var fog := fogModel.value(fv.value);
            var castle := castleModel.value(fv.value);
            && ComputeEventProbability(fog, castle, calibrator).Ok?
            && r.value == UpdateFeed(feed, date, fog, castle, ComputeEventProbability(fog, castle, calibrator).value))
  {
    var features := BuildFeatureFrame(date, reading, history, parseDate, parse);
    if features.Err? {
      return Err(features.error);
    }
    if fogModel.None? || castleModel.None? {
      return Err(FileMissing);
    }
    var fog := fogModel.value(features.value);
    var castle := castleModel.value(features.value);
    var event := ComputeEventProbability(fog, castle, calibrator);
    if event.Err? {
      return Err(event.error);
    }
    r := Ok(UpdateFeed(feed, date, fog, castle, event.value));
  }
}
