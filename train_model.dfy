/** Training (train_model.py): the training table built from history.csv
    (blank filter, date sort, one-day lag, lag filter), the two classifiers
    and their label guard, the castle training subset, the event
    calibrator, and the backfill of castle_event_probability into
    history.csv. */
module TrainModel {
  import opened Common
  import opened HistoryTable
  import opened Ordering
  import PredictModel

  const LabelColumns: seq<string> := ["fog_observed", "castle_visible"]
  /** The columns load_history demands and filters blanks on. */
  const RequiredColumns: seq<string> := PredictModel.BaseColumns + LabelColumns

  predicate HasColumns(t: Table, cols: seq<string>) {
    forall c :: c in cols ==> c in t.columns
  }

  /** The cell is present and not missing. */
  predicate Filled(row: Row, c: string) {
    c in row && row[c] != Blank
  }

  /** The cell is present and a number. */
  predicate NumberAt(row: Row, c: string) {
    c in row && row[c].Num?
  }

  /** No required cell is missing (the row survives the first dropna). */
  predicate Complete(row: Row) {
    && Filled(row, "temp") && Filled(row, "humidity") && Filled(row, "wind") && Filled(row, "cloud")
    && Filled(row, "rain") && Filled(row, "fog_observed") && Filled(row, "castle_visible")
  }

  /** Every required cell holds a number. */
  predicate Numeric(row: Row) {
    && NumberAt(row, "temp") && NumberAt(row, "humidity") && NumberAt(row, "wind") && NumberAt(row, "cloud")
    && NumberAt(row, "rain") && NumberAt(row, "fog_observed") && NumberAt(row, "castle_visible")
  }

  lemma CompleteMeansFilled(row: Row)
    ensures Complete(row) <==> forall c :: c in RequiredColumns ==> Filled(row, c)
  {
  }

  /** The positions of the complete rows, in file order. */
  function CompleteIndices(rows: seq<Row>): (ks: seq<nat>)
    ensures forall k :: 0 <= k < |ks| ==> ks[k] < |rows| && Complete(rows[ks[k]])
    ensures forall i :: 0 <= i < |rows| && Complete(rows[i]) ==> i in ks
    ensures forall a, b :: 0 <= a < b < |ks| ==> ks[a] < ks[b]
    ensures |ks| <= |rows|
  {
    if rows == [] then []
    else
      var n := |rows| - 1;
      var init := CompleteIndices(rows[..n]);
      assert forall i :: 0 <= i < n ==> rows[..n][i] == rows[i];
      if Complete(rows[n]) then init + [n] else init
  }

  /** `pd.to_datetime(df["date"])` without coercion: a missing date is NaT,
      a string it cannot read raises. A number as a date is taken to raise
      as well. */
  function StrictDate(c: Cell, parseDate: DateParser): (r: Result<Option<int>>)
    ensures c.Blank? ==> r == Ok(None)
    ensures c.Day? ==> r == Ok(Some(c.d))
    ensures c.Text? ==> (r.Ok? <==> parseDate(c.s).Some?)
    ensures r.Ok? ==> r.value == DateOf(c, parseDate)
  {
    match c
    case Blank => Ok(None)
    case Day(d) => Ok(Some(d))
    case Text(s) => if parseDate(s).Some? then Ok(parseDate(s)) else Err(MalformedRecord)
    case Num(_) => Err(MalformedRecord)
  }

  /** The five weather values of a numeric row, in feature order. */
  function BaseValues(row: Row): (v: seq<real>)
    requires Numeric(row)
    ensures |v| == 5 && forall k :: 0 <= k < 5 ==> v[k] == row[PredictModel.BaseColumns[k]].x
  {
    [row["temp"].x, row["humidity"].x, row["wind"].x, row["cloud"].x, row["rain"].x]
  }

  /** One training row: its index label in history.csv, its date, the five
      weather values, the five of the row before it in date order, and the
      two labels as `astype(int)` makes them. */
  datatype Sample = Sample(index: nat, date: Option<int>, base: seq<real>, prev: seq<real>, fog: int, castle: int)

  predicate Shaped(s: Sample) {
    |s.base| == 5 && |s.prev| == 5
  }

  /** The row `df[FEATURE_COLUMNS]`, with temp_prev_diff = prev_temp - temp. */
  function Features(s: Sample): (x: seq<Float>)
    requires Shaped(s)
    ensures |x| == 11
    ensures forall k :: 0 <= k < 5 ==> x[k] == Real(s.base[k]) && x[5 + k] == Real(s.prev[k])
    ensures x[10] == Real(s.prev[0] - s.base[0])
  {
    seq(5, k requires 0 <= k < 5 => Real(s.base[k])) + seq(5, k requires 0 <= k < 5 => Real(s.prev[k]))
      + [Real(s.prev[0] - s.base[0])]
  }

  /** The rows that survive the blank filter, with their positions and dates. */
  datatype Kept = Kept(rows: seq<Row>, index: seq<nat>, dates: seq<Option<int>>)

  predicate KeptShape(k: Kept) {
    && |k.index| == |k.rows| && |k.dates| == |k.rows|
    && forall i :: 0 <= i < |k.rows| ==> Numeric(k.rows[i])
  }

  /** The sample at sorted position p + 1, its lag from sorted position p. */
  function SampleAt(k: Kept, ord: seq<nat>, p: nat): (s: Sample)
    requires KeptShape(k) && IsSortedOrder(k.dates, ord) && p + 1 < |ord|
    ensures Shaped(s)
  {
    var cur := k.rows[ord[p + 1]];
    Sample(k.index[ord[p + 1]], k.dates[ord[p + 1]], BaseValues(cur), BaseValues(k.rows[ord[p]]),
           Trunc(cur["fog_observed"].x), Trunc(cur["castle_visible"].x))
  }

  /** Sort by date, shift by one row, drop the first (its lags are NaN). */
  function ShiftedSamples(k: Kept): (ss: seq<Sample>)
    requires KeptShape(k) && |k.rows| >= 1
    ensures |ss| == |k.rows| - 1
    ensures forall p :: 0 <= p < |ss| ==> ss[p] == SampleAt(k, SortedOrder(k.dates), p)
  {
    var ord := SortedOrder(k.dates);
    seq(|k.rows| - 1, p requires 0 <= p < |k.rows| - 1 => SampleAt(k, ord, p))
  }

  /** A row the date parse and the arithmetic accept. */
  predicate Usable(row: Row, parseDate: DateParser) {
    Numeric(row) && "date" in row && StrictDate(row["date"], parseDate).Ok?
  }

  /** Every complete row is usable. */
  predicate AllUsable(t: Table, parseDate: DateParser) {
    forall k :: 0 <= k < |CompleteIndices(t.rows)| ==> Usable(t.rows[CompleteIndices(t.rows)[k]], parseDate)
  }

  /** The complete rows of the table, provided they are numeric and dated. */
  function KeepRows(t: Table, parseDate: DateParser): (r: Result<Kept>)
    ensures r.Err? ==> r.error == MalformedRecord
    ensures r.Ok? <==> AllUsable(t, parseDate)
    ensures r.Ok? ==> KeptShape(r.value) && r.value.index == CompleteIndices(t.rows)
    ensures r.Ok? ==> forall k :: 0 <= k < |r.value.rows| ==>
      && r.value.rows[k] == t.rows[r.value.index[k]]
      && r.value.dates[k] == DateOf(t.rows[r.value.index[k]]["date"], parseDate)
  {
    var ks := CompleteIndices(t.rows);
    if AllUsable(t, parseDate) then
      var rows := seq(|ks|, k requires 0 <= k < |ks| => t.rows[ks[k]]);
      var dates := seq(|ks|, k requires 0 <= k < |ks| => DateOf(t.rows[ks[k]]["date"], parseDate));
      Ok(Kept(rows, ks, dates))
    else Err(MalformedRecord)
  }

  /** load_history: FileNotFoundError for a missing file, ValueError for an
      empty table, for a missing required column, and when no row survives
      the blank filter or the lag filter; a missing date column is a
      KeyError and an unreadable date or a non-numeric value raises too. */
  function LoadHistory(file: Option<Table>, parseDate: DateParser): (r: Result<seq<Sample>>)
    requires file.Some? ==> WellFormed(file.value)
    ensures r == Err(FileMissing) <==> file.None?
    ensures file.Some? && IsEmpty(file.value) ==> r == Err(EmptyTable)
    ensures file.Some? && !IsEmpty(file.value) && !HasColumns(file.value, RequiredColumns) ==> r == Err(MissingColumns)
    ensures (file.Some? && !IsEmpty(file.value) && HasColumns(file.value, RequiredColumns) &&
             |CompleteIndices(file.value.rows)| == 0) ==> r == Err(NoUsableRows)
    ensures (file.Some? && !IsEmpty(file.value) && HasColumns(file.value, RequiredColumns) &&
             |CompleteIndices(file.value.rows)| > 0 && "date" !in file.value.columns) ==> r == Err(MissingColumns)
    ensures (file.Some? && !IsEmpty(file.value) && HasColumns(file.value, RequiredColumns) &&
             |CompleteIndices(file.value.rows)| > 0 && "date" in file.value.columns) ==>
      && (KeepRows(file.value, parseDate).Err? ==> r == Err(MalformedRecord))
      && (KeepRows(file.value, parseDate).Ok? ==>
            (r.Ok? <==> |KeepRows(file.value, parseDate).value.rows| >= 2) &&
            (r.Err? ==> r == Err(NoUsableRows)))
    ensures r.Ok? ==>
      && file.Some? && !IsEmpty(file.value) && HasColumns(file.value, RequiredColumns)
      && "date" in file.value.columns && KeepRows(file.value, parseDate).Ok?
      && r.value == ShiftedSamples(KeepRows(file.value, parseDate).value)
    ensures r.Ok? ==> |r.value| == |CompleteIndices(file.value.rows)| - 1 >= 1
  {
    if file.None? then Err(FileMissing)
    else
      var t := file.value;
      if IsEmpty(t) then Err(EmptyTable)
      else if !HasColumns(t, RequiredColumns) then Err(MissingColumns)
      else if |CompleteIndices(t.rows)| == 0 then Err(NoUsableRows)
      else if "date" !in t.columns then Err(MissingColumns)
      else match KeepRows(t, parseDate)
        case Err(e) => Err(e)
        case Ok(k) =>
          if |k.rows| == 1 then Err(NoUsableRows)
          else Ok(ShiftedSamples(k))
  }

  /** After the sort, each row's lag values are the weather values of the
      row before it, and the dates never decrease. */
  lemma ShiftedSamplesShift(k: Kept)
    requires KeptShape(k) && |k.rows| >= 1
    ensures var ss := ShiftedSamples(k);
      && (forall p :: 1 <= p < |ss| ==> ss[p].prev == ss[p - 1].base)
      && (forall p, q :: 0 <= p < q < |ss| ==> DateLe(ss[p].date, ss[q].date))
  {
    var ord := SortedOrder(k.dates);
    var ss := ShiftedSamples(k);
    forall p | 1 <= p < |ss| ensures ss[p].prev == ss[p - 1].base {
      assert ss[p] == SampleAt(k, ord, p) && ss[p - 1] == SampleAt(k, ord, p - 1);
    }
    forall p, q | 0 <= p < q < |ss| ensures DateLe(ss[p].date, ss[q].date) {
      assert ss[p] == SampleAt(k, ord, p) && ss[q] == SampleAt(k, ord, q);
    }
  }

  /** Training row p is the kept row in place p + 1 of the date order, with
      its own position, weather values, date and labels. */
  lemma ShiftedSamplesFromRows(k: Kept)
    requires KeptShape(k) && |k.rows| >= 1
    ensures var ss := ShiftedSamples(k);
      forall p :: 0 <= p < |ss| ==> SampleOf(k, SortedOrder(k.dates)[p + 1], ss[p])
  {
    var ord := SortedOrder(k.dates);
    var ss := ShiftedSamples(k);
    forall p | 0 <= p < |ss| ensures SampleOf(k, ord[p + 1], ss[p]) {
      assert ss[p] == SampleAt(k, ord, p);
    }
  }

  /** Sample s carries kept row m's position, values, date and labels. */
  predicate SampleOf(k: Kept, m: nat, s: Sample) {
    && KeptShape(k) && m < |k.rows|
    && s.index == k.index[m] && s.base == BaseValues(k.rows[m]) && s.date == k.dates[m]
    && s.fog == Trunc(k.rows[m]["fog_observed"].x) && s.castle == Trunc(k.rows[m]["castle_visible"].x)
  }

  /** No kept row appears twice; every kept row is there but one, the first
      in date order, whose values are the first training row's lags. */
  lemma ShiftedSamplesCover(k: Kept)
    requires KeptShape(k) && |k.rows| >= 1
    requires forall a, b :: 0 <= a < b < |k.index| ==> k.index[a] < k.index[b]
    ensures var ss := ShiftedSamples(k);
      && (forall p, q :: 0 <= p < q < |ss| ==> ss[p].index != ss[q].index)
      && exists first :: 0 <= first < |k.rows| && FirstDropped(k, first, ss)
  {
    var ord := SortedOrder(k.dates);
    var ss := ShiftedSamples(k);
    forall p, q | 0 <= p < q < |ss| ensures ss[p].index != ss[q].index {
      assert ss[p] == SampleAt(k, ord, p) && ss[q] == SampleAt(k, ord, q);
      assert Precedes(k.dates, ord[p + 1], ord[q + 1]);
      DistinctIndex(k, ord[p + 1], ord[q + 1]);
    }
    var first := ord[0];
    forall p | 0 <= p < |ss| ensures ss[p].index != k.index[first] {
      assert ss[p] == SampleAt(k, ord, p);
      assert Precedes(k.dates, ord[0], ord[p + 1]);
      DistinctIndex(k, ord[0], ord[p + 1]);
    }
    forall m | 0 <= m < |k.rows| && m != first
      ensures exists p :: 0 <= p < |ss| && ss[p].index == k.index[m]
    {
      assert m in ord;
      var j :| 0 <= j < |ord| && ord[j] == m;
      assert ss[j - 1] == SampleAt(k, ord, j - 1);
    }
    if |ss| > 0 {
      assert ss[0] == SampleAt(k, ord, 0);
    }
    assert FirstDropped(k, first, ss);
  }

  /** Kept row `first` is the one without a training row: it is no
      sample's row, its values are the first sample's lags, and every other
      kept row is some sample's row. */
  predicate FirstDropped(k: Kept, first: nat, ss: seq<Sample>)
    requires KeptShape(k) && first < |k.rows|
  {
    && (forall p :: 0 <= p < |ss| ==> ss[p].index != k.index[first])
    && (|ss| > 0 ==> ss[0].prev == BaseValues(k.rows[first]))
    && (forall m :: 0 <= m < |k.rows| && m != first ==> exists p :: 0 <= p < |ss| && ss[p].index == k.index[m])
  }

  lemma DistinctIndex(k: Kept, a: nat, b: nat)
    requires KeptShape(k) && a < |k.index| && b < |k.index| && a != b
    requires forall x, y :: 0 <= x < y < |k.index| ==> k.index[x] < k.index[y]
    ensures k.index[a] != k.index[b]
  {
    if a < b {
      assert k.index[a] < k.index[b];
    } else {
      assert k.index[b] < k.index[a];
    }
  }

  // ----- the label guard and the training sets -----

  /** `target.nunique()`: the number of distinct labels. */
  function NUnique(ys: seq<int>): nat {
    |set i | 0 <= i < |ys| :: ys[i]|
  }

  /** Two rows carry different labels. */
  predicate TwoLabels(ys: seq<int>) {
    exists i, j :: 0 <= i < |ys| && 0 <= j < |ys| && ys[i] != ys[j]
  }

  /** `nunique() >= 2` holds exactly when two rows disagree. */
  lemma NUniqueTwo(ys: seq<int>)
    ensures NUnique(ys) >= 2 <==> TwoLabels(ys)
  {
    var labels := set i | 0 <= i < |ys| :: ys[i];
    if TwoLabels(ys) {
      var i, j :| 0 <= i < |ys| && 0 <= j < |ys| && ys[i] != ys[j];
      var pair := {ys[i], ys[j]};
      assert |pair| == 2;
      assert pair <= labels;
      assert |labels| == |pair| + |labels - pair|;
    } else if |ys| == 0 {
      assert labels == {};
    } else {
      assert labels == {ys[0]} by {
        forall x | x in labels ensures x == ys[0] {
          var i :| 0 <= i < |ys| && ys[i] == x;
        }
      }
    }
  }

  /** The feature matrix `df[FEATURE_COLUMNS]`, row by row. */
  function FeatureMatrix(ss: seq<Sample>): (x: seq<seq<Float>>)
    requires forall p :: 0 <= p < |ss| ==> Shaped(ss[p])
    ensures |x| == |ss| && forall p :: 0 <= p < |ss| ==> x[p] == Features(ss[p])
  {
    seq(|ss|, p requires 0 <= p < |ss| && Shaped(ss[p]) => Features(ss[p]))
  }

  function FogLabels(ss: seq<Sample>): (ys: seq<int>)
    ensures |ys| == |ss| && forall p :: 0 <= p < |ss| ==> ys[p] == ss[p].fog
  {
    seq(|ss|, p requires 0 <= p < |ss| => ss[p].fog)
  }

  function CastleLabels(ss: seq<Sample>): (ys: seq<int>)
    ensures |ys| == |ss| && forall p :: 0 <= p < |ss| ==> ys[p] == ss[p].castle
  {
    seq(|ss|, p requires 0 <= p < |ss| => ss[p].castle)
  }

  /** LGBMClassifier(objective="binary", n_estimators=200, ...).fit: an
      opaque map from a feature matrix and its labels to a classifier. */
  type Fitter = (seq<seq<Float>>, seq<int>) -> Classifier

  /** train_model without the file write: a ValueError unless the target has
      two distinct labels, otherwise the fitted classifier. */
  function Fit(x: seq<seq<Float>>, ys: seq<int>, fit: Fitter): (r: Result<Classifier>)
    ensures r.Err? <==> !TwoLabels(ys)
    ensures r.Err? ==> r.error == SingleLabel
    ensures r.Ok? ==> r.value == fit(x, ys)
  {
    NUniqueTwo(ys);
    if NUnique(ys) < 2 then Err(SingleLabel) else Ok(fit(x, ys))
  }

  /** `df["fog_observed"] == 1`, row by row. */
  function FogMask(ss: seq<Sample>): (mask: seq<bool>)
    ensures |mask| == |ss|
    ensures forall i :: 0 <= i < |ss| ==> mask[i] == (ss[i].fog == 1)
  {
    seq(|ss|, i requires 0 <= i < |ss| => ss[i].fog == 1)
  }

  /** `df[df["fog_observed"] == 1]`: the foggy rows, in order, each once:
      the samples at the positions Where(FogMask(ss)). */
  function FogRows(ss: seq<Sample>): (f: seq<Sample>)
    ensures |f| == |Where(FogMask(ss))| <= |ss|
    ensures forall k :: 0 <= k < |f| ==> f[k] == ss[Where(FogMask(ss))[k]]
    ensures forall s :: s in f <==> s in ss && s.fog == 1
  {
    if ss == [] then []
    else
      var n := |ss| - 1;
      var rest := FogRows(ss[..n]);
      assert FogMask(ss)[..n] == FogMask(ss[..n]);
      assert forall s :: s in ss <==> s == ss[n] || s in ss[..n];
      WhereBound(FogMask(ss));
      if ss[n].fog == 1 then rest + [ss[n]] else rest
  }

  /** Where picks each position at most once. */
  lemma {:induction false} WhereBound(mask: seq<bool>)
    ensures |Where(mask)| <= |mask|
  {
    if mask != [] {
      WhereBound(mask[..|mask| - 1]);
    }
  }

  /** The rows the castle model is trained on: the foggy rows when there
      are at least two of them and they carry both castle labels, otherwise
      every row. */
  function CastleTrainingSet(ss: seq<Sample>): (c: seq<Sample>)
    ensures c == FogRows(ss) || c == ss
    ensures c == FogRows(ss) && c != ss ==> |c| >= 2 && TwoLabels(CastleLabels(c)) && forall s :: s in c ==> s.fog == 1
    ensures |FogRows(ss)| >= 2 && TwoLabels(CastleLabels(FogRows(ss))) ==> c == FogRows(ss)
    ensures c != FogRows(ss) ==> c == ss
  {
    var fogRows := FogRows(ss);
    NUniqueTwo(CastleLabels(fogRows));
    if |fogRows| >= 2 && NUnique(CastleLabels(fogRows)) >= 2 then fogRows else ss
  }

  /** Training the castle model fails exactly when every row has the same
      castle label: the foggy subset is only chosen when it has both. */
  lemma CastleFitFailsOnlyOnOneLabel(ss: seq<Sample>, fit: Fitter)
    requires forall p :: 0 <= p < |ss| ==> Shaped(ss[p])
    ensures var c := CastleTrainingSet(ss);
      (forall p :: 0 <= p < |c| ==> Shaped(c[p])) &&
      (Fit(FeatureMatrix(c), CastleLabels(c), fit).Err? <==> !TwoLabels(CastleLabels(ss)))
  {
    var c := CastleTrainingSet(ss);
    if c != ss {
      assert c == FogRows(ss) && TwoLabels(CastleLabels(c));
      var ix := Where(FogMask(ss));
      forall p | 0 <= p < |c| ensures Shaped(c[p]) {
        assert c[p] == ss[ix[p]];
      }
      FoggyLabelsAmongAll(ss);
    }
    assert TwoLabels(CastleLabels(c)) <==> TwoLabels(CastleLabels(ss));
  }

  /** Two castle labels among the foggy rows are two among all rows. */
  lemma FoggyLabelsAmongAll(ss: seq<Sample>)
    requires TwoLabels(CastleLabels(FogRows(ss)))
    ensures TwoLabels(CastleLabels(ss))
  {
    var f := FogRows(ss);
    var ix := Where(FogMask(ss));
    var i, j :| 0 <= i < |f| && 0 <= j < |f| && CastleLabels(f)[i] != CastleLabels(f)[j];
    assert f[i] == ss[ix[i]] && f[j] == ss[ix[j]];
    assert CastleLabels(ss)[ix[i]] != CastleLabels(ss)[ix[j]];
  }

  /** The event target `(fog_observed == 1) & (castle_visible == 1)`. */
  function EventTarget(ss: seq<Sample>): (ys: seq<int>)
    ensures |ys| == |ss|
    ensures forall p :: 0 <= p < |ss| ==> (ys[p] == 1 <==> ss[p].fog == 1 && ss[p].castle == 1)
    ensures forall p :: 0 <= p < |ss| ==> ys[p] == 0 || ys[p] == 1
  {
    seq(|ss|, p requires 0 <= p < |ss| => if ss[p].fog == 1 && ss[p].castle == 1 then 1 else 0)
  }

  /** build_calibrator_features for one row, in the column order
      [fog_probability, castle_probability, fog_castle_product]. */
  function CalibratorRow(fog: real, castle: real): seq<real> {
    [fog, castle, fog * castle]
  }

  /** The calibrator's inputs: one row per training row, from the two
      classifiers' probabilities on its features. */
  function CalibratorInputs(ss: seq<Sample>, fogModel: Classifier, castleModel: Classifier): (x: seq<seq<real>>)
    requires forall p :: 0 <= p < |ss| ==> Shaped(ss[p])
    ensures |x| == |ss|
    ensures forall p :: 0 <= p < |ss| ==>
      x[p] == CalibratorRow(fogModel(Features(ss[p])), castleModel(Features(ss[p])))
  {
    seq(|ss|, p requires 0 <= p < |ss| && Shaped(ss[p]) =>
      CalibratorRow(fogModel(Features(ss[p])), castleModel(Features(ss[p]))))
  }

  /** The stored feature names select, at prediction time, exactly the
      columns the calibrator was trained on. */
  lemma CalibratorColumnsAgree(fog: real, castle: real)
    ensures PredictModel.SelectColumns(PredictModel.CalibratorFeatures(fog, castle), PredictModel.CalibratorColumns)
            == Ok(CalibratorRow(fog, castle))
  {
    var m := PredictModel.CalibratorFeatures(fog, castle);
    var r := PredictModel.SelectColumns(m, PredictModel.CalibratorColumns);
    assert r.Ok?;
    assert r.value == CalibratorRow(fog, castle);
  }

  /** LogisticRegression(max_iter=1000).fit: an opaque map from the
      calibrator inputs and the event target to a calibration model. */
  type CalibratorFitter = (seq<seq<real>>, seq<int>) -> PredictModel.CalibrationModel

  // ----- the model directory -----

  datatype ModelKind = FogModel | CastleModel

  /** The three model files: the fog and castle classifiers and the event
      calibrator's payload, each absent or present. */
  class ModelStore {
    var fog: Option<Classifier>
    var castle: Option<Classifier>
    var calibrator: Option<PredictModel.CalibratorArtifact>

    constructor (fog: Option<Classifier>, castle: Option<Classifier>, calibrator: Option<PredictModel.CalibratorArtifact>)
      ensures this.fog == fog && this.castle == castle && this.calibrator == calibrator
    {
      this.fog := fog;
      this.castle := castle;
      this.calibrator := calibrator;
    }
  }

  /** train_model: fit and save one classifier; nothing is saved when the
      label guard raises. */
  method TrainClassifier(store: ModelStore, kind: ModelKind, x: seq<seq<Float>>, ys: seq<int>, fit: Fitter)
    returns (r: Result<Classifier>)
    modifies store
    ensures r == Fit(x, ys, fit)
    ensures r.Err? ==> store.fog == old(store.fog) && store.castle == old(store.castle)
    ensures r.Ok? && kind == FogModel ==> store.fog == Some(r.value) && store.castle == old(store.castle)
    ensures r.Ok? && kind == CastleModel ==> store.castle == Some(r.value) && store.fog == old(store.fog)
    ensures store.calibrator == old(store.calibrator)
  {
    r := Fit(x, ys, fit);
    if r.Ok? {
      if kind == FogModel {
        store.fog := Some(r.value);
      } else {
        store.castle := Some(r.value);
      }
    }
  }

  /** The calibrator payload train_event_calibrator leaves behind: none with
      a one-class event target, otherwise the calibrator fitted on the two
      probabilities and their product, saved with its feature names. */
  function CalibratorFor(ss: seq<Sample>, fogModel: Classifier, castleModel: Classifier,
                         fitCalibrator: CalibratorFitter): (a: Option<PredictModel.CalibratorArtifact>)
    requires forall p :: 0 <= p < |ss| ==> Shaped(ss[p])
    ensures a.None? <==> !TwoLabels(EventTarget(ss))
    ensures a.Some? ==> a.value == PredictModel.CalibratorArtifact(
      Some(fitCalibrator(CalibratorInputs(ss, fogModel, castleModel), EventTarget(ss))),
      Some(PredictModel.CalibratorColumns))
  {
    NUniqueTwo(EventTarget(ss));
    if NUnique(EventTarget(ss)) < 2 then None
    else Some(PredictModel.CalibratorArtifact(Some(fitCalibrator(CalibratorInputs(ss, fogModel, castleModel), EventTarget(ss))),
                                              Some(PredictModel.CalibratorColumns)))
  }

  /** train_event_calibrator: with a one-class event target any saved
      calibrator is removed and nothing is trained; otherwise the new
      calibrator replaces the saved one. */
  method TrainEventCalibrator(store: ModelStore, ss: seq<Sample>, fogModel: Classifier, castleModel: Classifier,
                              fitCalibrator: CalibratorFitter)
    requires forall p :: 0 <= p < |ss| ==> Shaped(ss[p])
    modifies store
    ensures store.fog == old(store.fog) && store.castle == old(store.castle)
    ensures store.calibrator == CalibratorFor(ss, fogModel, castleModel, fitCalibrator)
  {
    var target := EventTarget(ss);
    NUniqueTwo(target);
    if NUnique(target) < 2 {
      store.calibrator := None;
      return;
    }
    var inputs := CalibratorInputs(ss, fogModel, castleModel);
    store.calibrator := Some(PredictModel.CalibratorArtifact(Some(fitCalibrator(inputs, target)),
                                                             Some(PredictModel.CalibratorColumns)));
  }

  /** The fog model's fit on every loaded row. */
  function FogFit(ss: seq<Sample>, fit: Fitter): (r: Result<Classifier>)
    requires forall p :: 0 <= p < |ss| ==> Shaped(ss[p])
    ensures r.Err? <==> !TwoLabels(FogLabels(ss))
  {
    Fit(FeatureMatrix(ss), FogLabels(ss), fit)
  }

  /** The castle model's fit on its training set. */
  function CastleFit(ss: seq<Sample>, fit: Fitter): (r: Result<Classifier>)
    requires forall p :: 0 <= p < |ss| ==> Shaped(ss[p])
    ensures r.Err? <==> !TwoLabels(CastleLabels(ss))
  {
    CastleFitFailsOnlyOnOneLabel(ss, fit);
    var c := CastleTrainingSet(ss);
    Fit(FeatureMatrix(c), CastleLabels(c), fit)
  }

  // ----- the backfill of castle_event_probability -----

  const EventColumn: string := "castle_event_probability"

  /** The two classifiers in memory and the calibrator file as it stands. */
  datatype Models = Models(fog: Classifier, castle: Classifier, calibrator: Option<PredictModel.CalibratorArtifact>)

  /** The weather values of every file row (`vals`, in file order) and the
      row order `sort_values("date")` gives (`ord`). */
  datatype SortedRows = SortedRows(vals: seq<seq<Float>>, ord: seq<nat>)

  predicate SortedOK(s: SortedRows) {
    && |s.ord| == |s.vals|
    && (forall i :: 0 <= i < |s.vals| ==> |s.vals[i]| == 5)
    && (forall p :: 0 <= p < |s.ord| ==> s.ord[p] < |s.vals|)
    && (forall i :: 0 <= i < |s.vals| ==> i in s.ord)
  }

  const NaNs: seq<Float> := [NaN, NaN, NaN, NaN, NaN]

  /** The eleven features of sorted position p: its own weather, the
      weather of the position before (NaN for the first, where shift(1)
      has nothing), and prev_temp - temp. */
  function LagFeatures(s: SortedRows, p: nat): (x: seq<Float>)
    requires SortedOK(s) && p < |s.ord|
    ensures |x| == 11
    ensures x[..5] == s.vals[s.ord[p]]
    ensures p == 0 ==> x[5..10] == NaNs
    ensures p > 0 ==> x[5..10] == s.vals[s.ord[p - 1]]
    ensures x[10] == Sub(x[5], x[0])
  {
    var cur := s.vals[s.ord[p]];
    var prev := if p == 0 then NaNs else s.vals[s.ord[p - 1]];
    cur + prev + [Sub(prev[0], cur[0])]
  }

  /** `notna().all(axis=1)`: no feature is NaN. */
  predicate Full(x: seq<Float>) {
    forall k :: 0 <= k < |x| ==> x[k].Real?
  }

  /** The first row in date order never has a full feature vector; any
      other has one exactly when its weather and the previous row's are
      all numbers. */
  lemma FullLagFeatures(s: SortedRows, p: nat)
    requires SortedOK(s) && p < |s.ord|
    ensures p == 0 ==> !Full(LagFeatures(s, p))
    ensures p > 0 ==> (Full(LagFeatures(s, p)) <==> Full(s.vals[s.ord[p]]) && Full(s.vals[s.ord[p - 1]]))
  {
    var x := LagFeatures(s, p);
    if p == 0 {
      assert x[5..10][0] == NaN;
      assert x[5] == NaN;
    } else {
      var cur := s.vals[s.ord[p]];
      var prev := s.vals[s.ord[p - 1]];
      assert forall k :: 0 <= k < 5 ==> x[k] == x[..5][k] && x[5 + k] == x[5..10][k];
      if Full(cur) && Full(prev) {
        assert forall k :: 0 <= k < 10 ==> x[k].Real?;
        assert x[10] == Sub(x[5], x[0]);
      }
    }
  }

  /** The event probability of one full feature vector: the calibrator's
      output on the stored columns, or fog * castle without a calibrator
      file. Here nothing falls back: a payload without `model` or
      `feature_names`, an unknown name, or a failing predict_proba raises. */
  function EventOf(x: seq<Float>, m: Models): (r: Result<Prob>)
    ensures m.calibrator.None? ==> r == Ok(m.fog(x) * m.castle(x))
    ensures m.calibrator.Some? ==>
      var a := m.calibrator.value;
      (r.Err? <==> a.model.None? || a.featureNames.None?
                   || PredictModel.SelectColumns(PredictModel.CalibratorFeatures(m.fog(x), m.castle(x)), a.featureNames.value).Err?
                   || a.model.value(PredictModel.SelectColumns(PredictModel.CalibratorFeatures(m.fog(x), m.castle(x)), a.featureNames.value).value).None?)
    ensures m.calibrator.Some? && r.Ok? ==>
      var a := m.calibrator.value;
      Some(r.value) == a.model.value(PredictModel.SelectColumns(PredictModel.CalibratorFeatures(m.fog(x), m.castle(x)), a.featureNames.value).value)
  {
    var f := m.fog(x);
    var c := m.castle(x);
    match m.calibrator
    case None => Ok(PredictModel.Product(f, c))
    case Some(a) =>
      if a.model.None? || a.featureNames.None? then Err(MissingColumns)
      else match PredictModel.SelectColumns(PredictModel.CalibratorFeatures(f, c), a.featureNames.value)
        case Err(e) => Err(e)
        case Ok(input) =>
          match a.model.value(input)
          case None => Err(CalibratorFailed)
          case Some(e) => Ok(e)
  }

  /** The event probability of each of the first n sorted positions: None
      where the feature vector is not full, the first failure in sorted
      order otherwise. */
  function PositionEvents(s: SortedRows, m: Models, n: nat): (r: Result<seq<Option<Prob>>>)
    requires SortedOK(s) && n <= |s.ord|
    ensures r.Err? <==> exists p :: 0 <= p < n && Full(LagFeatures(s, p)) && EventOf(LagFeatures(s, p), m).Err?
    ensures r.Ok? ==> |r.value| == n
    ensures r.Ok? ==> forall p :: 0 <= p < n ==>
      && (r.value[p].None? <==> !Full(LagFeatures(s, p)))
      && (r.value[p].Some? ==> EventOf(LagFeatures(s, p), m) == Ok(r.value[p].value))
  {
    if n == 0 then Ok([])
    else
      match PositionEvents(s, m, n - 1)
      case Err(e) => Err(e)
      case Ok(init) =>
        var x := LagFeatures(s, n - 1);
        if !Full(x) then Ok(init + [None])
        else match EventOf(x, m)
          case Err(e) => Err(e)
          case Ok(v) => Ok(init + [Some(v)])
  }

  /** The sorted position of file row i. */
  function Pos(ord: seq<nat>, i: nat): (p: nat)
    requires i in ord
    ensures p < |ord| && ord[p] == i
  {
    if ord[0] == i then 0 else 1 + Pos(ord[1..], i)
  }

  /** The new column as intended: every file row gets the probability
      computed from its own feature vector, or NA without one. */
  function OwnRowCells(s: SortedRows, ev: seq<Option<Prob>>): (cs: seq<Cell>)
    requires SortedOK(s) && |ev| == |s.ord|
    ensures |cs| == |s.vals|
    ensures forall i :: 0 <= i < |s.vals| ==>
      cs[i] == (if ev[Pos(s.ord, i)].Some? then Num(ev[Pos(s.ord, i)].value) else Blank)
  {
    seq(|s.vals|, i requires 0 <= i < |s.vals| && SortedOK(s) && |ev| == |s.ord| =>
      var p := Pos(s.ord, i);
      if ev[p].Some? then Num(ev[p].value) else Blank)
  }

  /** The positions of the true entries, ascending. */
  function Where(mask: seq<bool>): (ps: seq<nat>)
    ensures forall k :: 0 <= k < |ps| ==> ps[k] < |mask| && mask[ps[k]]
    ensures forall i :: 0 <= i < |mask| && mask[i] ==> i in ps
    ensures forall a, b :: 0 <= a < b < |ps| ==> ps[a] < ps[b]
  {
    if mask == [] then []
    else
      var n := |mask| - 1;
      var init := Where(mask[..n]);
      assert forall i :: 0 <= i < n ==> mask[..n][i] == mask[i];
      if mask[n] then init + [n] else init
  }

  /** `history_raw.loc[feature_mask, col] = event_prob` with `event_prob` a
      plain array: the mask is aligned to history_raw's own row order, and
      the array, which is in sorted order, is poured into the selected rows
      one after the other in file order. */
  function PositionalCells(fileMask: seq<bool>, values: seq<real>): (cs: seq<Cell>)
    ensures |cs| == |fileMask|
  {
    if fileMask == [] then []
    else if fileMask[0] && values != [] then [Num(values[0])] + PositionalCells(fileMask[1..], values[1..])
    else [Blank] + PositionalCells(fileMask[1..], values)
  }

  /** `feature_mask`, aligned to the file rows: true where the row's own
      sorted position has a full vector. */
  function FileMask(s: SortedRows, ev: seq<Option<Prob>>): (mask: seq<bool>)
    requires SortedOK(s) && |ev| == |s.ord|
    ensures |mask| == |s.vals|
    ensures forall i :: 0 <= i < |s.vals| ==> mask[i] == ev[Pos(s.ord, i)].Some?
  {
    seq(|s.vals|, i requires 0 <= i < |s.vals| && SortedOK(s) && |ev| == |s.ord| => ev[Pos(s.ord, i)].Some?)
  }

  /** `event_prob`: the probabilities of the full sorted positions, in
      sorted order. */
  function SortedValues(ev: seq<Option<Prob>>): (values: seq<real>)
    ensures |values| == |Where(SomeMask(ev))|
    ensures forall k :: 0 <= k < |values| ==>
      Where(SomeMask(ev))[k] < |ev| && ev[Where(SomeMask(ev))[k]].Some? && values[k] == ev[Where(SomeMask(ev))[k]].value
  {
    var positions := Where(SomeMask(ev));
    seq(|positions|, k requires 0 <= k < |positions| && positions[k] < |ev| && ev[positions[k]].Some? => ev[positions[k]].value as real)
  }

  function SomeMask(ev: seq<Option<Prob>>): (mask: seq<bool>)
    ensures |mask| == |ev|
    ensures forall p :: 0 <= p < |ev| ==> mask[p] == ev[p].Some?
  {
    seq(|ev|, p requires 0 <= p < |ev| => ev[p].Some?)
  }

  /** The new column as written: the sorted positions' probabilities, in
      sorted order, poured into the rows with a full vector in file order. */
  function AsWrittenCells(s: SortedRows, ev: seq<Option<Prob>>): (cs: seq<Cell>)
    requires SortedOK(s) && |ev| == |s.ord|
    ensures |cs| == |s.vals|
  {
    PositionalCells(FileMask(s, ev), SortedValues(ev))
  }

  /** The table with the event column replaced (or appended) by `cells`. */
  function WithEventColumn(t: Table, cells: seq<Cell>): (n: Table)
    requires WellFormed(t) && |cells| == |t.rows|
    ensures WellFormed(n)
    ensures EventColumn in t.columns ==> n.columns == t.columns
    ensures EventColumn !in t.columns ==> n.columns == t.columns + [EventColumn]
    ensures |n.rows| == |t.rows|
    ensures forall i :: 0 <= i < |t.rows| ==> n.rows[i] == t.rows[i][EventColumn := cells[i]]
  {
    var cols := if EventColumn in t.columns then t.columns else t.columns + [EventColumn];
    var rows := seq(|t.rows|, i requires 0 <= i < |t.rows| => t.rows[i][EventColumn := cells[i]]);
    assert Distinct(cols) by {
      if EventColumn !in t.columns {
        forall a, b | 0 <= a < b < |cols| ensures cols[a] != cols[b] {
          if b == |t.columns| {
            assert cols[a] == t.columns[a];
          }
        }
      }
    }
    Table(cols, rows)
  }

  predicate Convertible(t: Table, parse: TextParser)
    requires WellFormed(t) && PredictModel.HasLagColumns(t)
  {
    forall i :: 0 <= i < |t.rows| ==> PredictModel.FloatsOf(PredictModel.BaseCells(t.rows[i]), parse).Some?
  }

  /** The file rows' weather values and the sorted order of their coerced
      dates (`pd.to_datetime(..., errors="coerce")`, NaT last). */
  function SortRows(t: Table, parse: TextParser, parseDate: DateParser): (s: SortedRows)
    requires WellFormed(t) && PredictModel.HasLagColumns(t) && Convertible(t, parse)
    ensures SortedOK(s) && |s.vals| == |t.rows|
    ensures s.ord == SortedOrder(DateKeys(t, parseDate))
    ensures forall i :: 0 <= i < |t.rows| ==>
      Some(s.vals[i]) == PredictModel.FloatsOf(PredictModel.BaseCells(t.rows[i]), parse)
  {
    var vals := seq(|t.rows|, i requires 0 <= i < |t.rows| && WellFormed(t) && PredictModel.HasLagColumns(t) && Convertible(t, parse) =>
      PredictModel.FloatsOf(PredictModel.BaseCells(t.rows[i]), parse).value);
    SortedRows(vals, SortedOrder(DateKeys(t, parseDate)))
  }

  /** update_history_event_probability on history.csv's contents: nothing
      to do without the file or with an empty table (Ok(None)); a KeyError
      without the date or a weather column; otherwise the table with the
      event column rewritten, unless the calibrator raises. */
  function Backfill(file: Option<Table>, m: Models, parse: TextParser, parseDate: DateParser): (r: Result<Option<Table>>)
    requires file.Some? ==> WellFormed(file.value)
    ensures file.None? || IsEmpty(file.value) ==> r == Ok(None)
    ensures file.Some? && !IsEmpty(file.value) && !PredictModel.HasLagColumns(file.value) ==> r == Err(MissingColumns)
    ensures (file.Some? && !IsEmpty(file.value) && PredictModel.HasLagColumns(file.value) &&
             !Convertible(file.value, parse)) ==> r == Err(MalformedRecord)
    ensures (file.Some? && !IsEmpty(file.value) && PredictModel.HasLagColumns(file.value) &&
             Convertible(file.value, parse)) ==>
      var ev := PositionEvents(SortRows(file.value, parse, parseDate), m, |file.value.rows|);
      && (ev.Err? ==> r == Err(ev.error))
      && (ev.Ok? ==> r.Ok? && r.value.Some?)
    ensures r.Ok? && file.Some? && !IsEmpty(file.value) ==> r.value.Some?
    ensures r.Ok? && r.value.Some? ==>
      var t := file.value;
      && !IsEmpty(t) && PredictModel.HasLagColumns(t) && Convertible(t, parse)
      && PositionEvents(SortRows(t, parse, parseDate), m, |t.rows|).Ok?
      && r.value.value == WithEventColumn(t, OwnRowCells(SortRows(t, parse, parseDate),
                                                        PositionEvents(SortRows(t, parse, parseDate), m, |t.rows|).value))
  {
    if file.None? || IsEmpty(file.value) then Ok(None)
    else
      var t := file.value;
      if !PredictModel.HasLagColumns(t) then Err(MissingColumns)
      else if !Convertible(t, parse) then Err(MalformedRecord)
      else
        var s := SortRows(t, parse, parseDate);
        match PositionEvents(s, m, |t.rows|)
        case Err(e) => Err(e)
        case Ok(ev) => Ok(Some(WithEventColumn(t, OwnRowCells(s, ev))))
  }

  /** After the backfill every row's event cell is the probability of its
      own feature vector (its weather, and the previous row's in date
      order), NA where that vector is not full, and NA for the row that
      comes first in date order; no other cell changes. */
  lemma BackfillOwnRow(file: Option<Table>, m: Models, parse: TextParser, parseDate: DateParser)
    requires file.Some? ==> WellFormed(file.value)
    requires Backfill(file, m, parse, parseDate).Ok? && Backfill(file, m, parse, parseDate).value.Some?
    ensures var t := file.value;
      var n := Backfill(file, m, parse, parseDate).value.value;
      var s := SortRows(t, parse, parseDate);
      && |n.rows| == |t.rows|
      && (forall i :: 0 <= i < |t.rows| ==> OwnEventCell(s, m, i, n.rows[i][EventColumn]))
      && (forall i, c :: 0 <= i < |t.rows| && c in t.rows[i] && c != EventColumn ==> n.rows[i][c] == t.rows[i][c])
  {
    var t := file.value;
    var s := SortRows(t, parse, parseDate);
    var ev := PositionEvents(s, m, |t.rows|).value;
    var cells := OwnRowCells(s, ev);
    var n := WithEventColumn(t, cells);
    OwnRowCellsOwnVector(s, m);
    forall i | 0 <= i < |t.rows| ensures OwnEventCell(s, m, i, n.rows[i][EventColumn]) {
      assert n.rows[i][EventColumn] == cells[i];
    }
  }

  /** `cell` is what file row i should get: the probability of its own
      feature vector, or NA when that vector is not full. */
  predicate OwnEventCell(s: SortedRows, m: Models, i: nat, cell: Cell) {
    && SortedOK(s) && i < |s.vals|
    && var x := LagFeatures(s, Pos(s.ord, i));
       && (Full(x) ==> EventOf(x, m).Ok? && cell == Num(EventOf(x, m).value))
       && (!Full(x) ==> cell == Blank)
  }

  /** The row that comes first in date order has no previous row, so its
      event cell is NA. */
  lemma BackfillFirstRowNA(t: Table, parse: TextParser, parseDate: DateParser)
    requires WellFormed(t) && PredictModel.HasLagColumns(t) && Convertible(t, parse) && |t.rows| > 0
    ensures var s := SortRows(t, parse, parseDate);
      Pos(s.ord, s.ord[0]) == 0 && !Full(LagFeatures(s, 0))
  {
    var s := SortRows(t, parse, parseDate);
    FullLagFeatures(s, 0);
    OrderDistinct(t, parseDate, Pos(s.ord, s.ord[0]), 0);
  }

  /** Each file row's new cell comes from its own sorted position. */
  lemma OwnRowCellsOwnVector(s: SortedRows, m: Models)
    requires SortedOK(s) && PositionEvents(s, m, |s.ord|).Ok?
    ensures var cells := OwnRowCells(s, PositionEvents(s, m, |s.ord|).value);
      forall i :: 0 <= i < |s.vals| ==> OwnEventCell(s, m, i, cells[i])
  {
  }

  /** Three rows stored out of date order: row 0 is the latest day (temp
      12), row 1 the earliest (temp 10), row 2 the middle one (temp 11).
      With classifiers that answer 1 exactly when temp is 12, row 0's own
      vector scores 1, but the as-written assignment pours the sorted
      probabilities [0, 1] into rows 0 and 2 in file order, so row 0
      receives the middle day's 0. */
  lemma BackfillMisalignedAsWritten()
    ensures var s := MisorderedRows();
      var ev := PositionEvents(s, HotDayModels(), 3);
      && ev.Ok?
      && AsWrittenCells(s, ev.value)[0] == Num(0.0)
      && OwnRowCells(s, ev.value)[0] == Num(1.0)
  {
    var s := MisorderedRows();
    MisorderedEvents();
    var e: seq<Option<Prob>> := [None, Some(0.0), Some(1.0)];
    MisorderedAsWritten(e);
    assert Pos(s.ord, 0) == 2;
  }

  /** Positions 1 and 2 have full vectors; only position 2 (row 0, temp
      12) scores 1. */
  lemma MisorderedEvents()
    ensures PositionEvents(MisorderedRows(), HotDayModels(), 3) == Ok([None, Some(0.0), Some(1.0)])
  {
    var s := MisorderedRows();
    var m := HotDayModels();
    MisorderedFirst();
    MisorderedLater(1, 11.0);
    MisorderedLater(2, 12.0);
    assert PositionEvents(s, m, 2) == Ok([None] + [Some(0.0)]);
    assert [None] + [Some(0.0)] + [Some(1.0)] == [None, Some(0.0), Some(1.0)];
  }

  lemma MisorderedFirst()
    ensures PositionEvents(MisorderedRows(), HotDayModels(), 1) == Ok([None])
  {
    var s := MisorderedRows();
    FullLagFeatures(s, 0);
    var none: seq<Option<Prob>> := [];
    assert PositionEvents(s, HotDayModels(), 0) == Ok(none);
    assert none + [None] == [None];
  }

  lemma MisorderedLater(p: nat, temp: real)
    requires (p == 1 && temp == 11.0) || (p == 2 && temp == 12.0)
    ensures Full(LagFeatures(MisorderedRows(), p))
    ensures EventOf(LagFeatures(MisorderedRows(), p), HotDayModels()) == Ok(if temp == 12.0 then 1.0 else 0.0)
  {
    var s := MisorderedRows();
    var x := LagFeatures(s, p);
    FullLagFeatures(s, p);
    assert x[0] == x[..5][0] == Real(temp);
  }

  /** The as-written pouring for the counterexample's events: row 0 is
      selected and takes the first sorted probability, position 1's. */
  lemma MisorderedAsWritten(e: seq<Option<Prob>>)
    requires e == [None, Some(0.0), Some(1.0)]
    ensures AsWrittenCells(MisorderedRows(), e)[0] == Num(0.0)
  {
    var s := MisorderedRows();
    assert Pos(s.ord, 0) == 2;
    var fm := FileMask(s, e);
    assert fm[0];
    var ps := Where(SomeMask(e));
    assert 1 in ps;
    assert ps[0] == 1;
    var values := SortedValues(e);
    assert values[0] == 0.0;
  }

  /** Sorted rows for the counterexample: file order 0, 1, 2; date order
      1, 2, 0. */
  function MisorderedRows(): (s: SortedRows)
    ensures SortedOK(s)
  {
    var rest := [Real(0.0), Real(0.0), Real(0.0), Real(0.0)];
    SortedRows([[Real(12.0)] + rest, [Real(10.0)] + rest, [Real(11.0)] + rest], [1, 2, 0])
  }

  /** Both classifiers answer 1 exactly when the temperature feature is 12;
      there is no calibrator file. */
  function HotDayModels(): (m: Models)
    ensures m.calibrator.None?
  {
    var hot: Classifier := x => if |x| > 0 && x[0] == Real(12.0) then 1.0 else 0.0;
    Models(hot, hot, None)
  }

  /** update_history_event_probability on the file: rewritten with the
      backfilled table (the result says whether it was), left as it was
      when there is nothing to do or when the backfill raises. */
  method BackfillHistory(h: HistoryFile, m: Models, parse: TextParser, parseDate: DateParser)
    returns (r: Result<bool>)
    requires h.Valid()
    modifies h
    ensures h.Valid() && h.present == old(h.present)
    ensures var b := Backfill(old(h.Snapshot()), m, parse, parseDate);
      && (r.Err? <==> b.Err?)
      && (b.Err? ==> r.error == b.error)
      && (r.Ok? ==> (r.value <==> b.value.Some?))
      && (b.Ok? && b.value.Some? ==> h.Snapshot() == Some(b.value.value))
      && (b.Err? || b.value.None? ==> h.Snapshot() == old(h.Snapshot()))
  {
    var b := Backfill(h.Snapshot(), m, parse, parseDate);
    if b.Err? {
      return Err(b.error);
    }
    if b.value.None? {
      return Ok(false);
    }
    var t := b.value.value;
    h.columns := t.columns;
    h.rows := t.rows;
    r := Ok(true);
  }

  /** The models main trains from the loaded rows: an error when the fog
      or the castle target has one label, otherwise both classifiers and
      the calibrator payload. */
  function Trained(ss: seq<Sample>, fit: Fitter, fitCalibrator: CalibratorFitter): (r: Result<Models>)
    requires forall p :: 0 <= p < |ss| ==> Shaped(ss[p])
    ensures r.Err? <==> !TwoLabels(FogLabels(ss)) || !TwoLabels(CastleLabels(ss))
    ensures r.Err? ==> r.error == SingleLabel
    ensures r.Ok? ==>
      && r.value.fog == FogFit(ss, fit).value && r.value.castle == CastleFit(ss, fit).value
      && r.value.calibrator == CalibratorFor(ss, r.value.fog, r.value.castle, fitCalibrator)
  {
    match FogFit(ss, fit)
    case Err(e) => Err(SingleLabel)
    case Ok(fogModel) =>
      match CastleFit(ss, fit)
      case Err(e) => Err(SingleLabel)
      case Ok(castleModel) => Ok(Models(fogModel, castleModel, CalibratorFor(ss, fogModel, castleModel, fitCalibrator)))
  }

  /** The training half of main: each model file is saved as soon as its
      model is fitted, so a castle failure leaves the new fog model saved. */
  method TrainModels(store: ModelStore, ss: seq<Sample>, fit: Fitter, fitCalibrator: CalibratorFitter)
    returns (r: Result<Models>)
    requires forall p :: 0 <= p < |ss| ==> Shaped(ss[p])
    modifies store
    ensures r == Trained(ss, fit, fitCalibrator)
    ensures !TwoLabels(FogLabels(ss)) ==>
      store.fog == old(store.fog) && store.castle == old(store.castle) && store.calibrator == old(store.calibrator)
    ensures TwoLabels(FogLabels(ss)) && !TwoLabels(CastleLabels(ss)) ==>
      store.fog == Some(FogFit(ss, fit).value) && store.castle == old(store.castle) && store.calibrator == old(store.calibrator)
    ensures r.Ok? ==>
      store.fog == Some(r.value.fog) && store.castle == Some(r.value.castle) && store.calibrator == r.value.calibrator
  {
    var fogR := TrainClassifier(store, FogModel, FeatureMatrix(ss), FogLabels(ss), fit);
    if fogR.Err? {
      return Err(fogR.error);
    }
    CastleFitFailsOnlyOnOneLabel(ss, fit);
    var c := CastleTrainingSet(ss);
    var castleR := TrainClassifier(store, CastleModel, FeatureMatrix(c), CastleLabels(c), fit);
    if castleR.Err? {
      return Err(castleR.error);
    }
    TrainEventCalibrator(store, ss, fogR.value, castleR.value, fitCalibrator);
    r := Ok(Models(fogR.value, castleR.value, store.calibrator));
  }

  /** train_model.main: load the history, train the models, then backfill
      history.csv with them. The first error stops the run; model files
      saved before it stay. */
  method TrainMain(h: HistoryFile, store: ModelStore, fit: Fitter, fitCalibrator: CalibratorFitter,
                   parse: TextParser, parseDate: DateParser) returns (r: Result<bool>)
    requires h.Valid()
    modifies h, store
    ensures h.Valid() && h.present == old(h.present)
    ensures LoadHistory(old(h.Snapshot()), parseDate).Err? ==>
      && r == Err(LoadHistory(old(h.Snapshot()), parseDate).error)
      && h.Snapshot() == old(h.Snapshot()) && store.fog == old(store.fog) && store.castle == old(store.castle)
      && store.calibrator == old(store.calibrator)
    ensures LoadHistory(old(h.Snapshot()), parseDate).Ok? ==> TrainedThenBackfilled(
      old(h.Snapshot()), LoadHistory(old(h.Snapshot()), parseDate).value, fit, fitCalibrator, parse, parseDate,
      r, h.Snapshot())
    ensures LoadHistory(old(h.Snapshot()), parseDate).Ok? ==>
      StoreAfterTraining(LoadHistory(old(h.Snapshot()), parseDate).value, fit, fitCalibrator,
                         old(store.fog), old(store.castle), old(store.calibrator), store.fog, store.castle, store.calibrator)
  {
    var loaded := LoadHistory(h.Snapshot(), parseDate);
    if loaded.Err? {
      return Err(loaded.error);
    }
    LoadedShaped(h.Snapshot(), parseDate);
    r := TrainAndBackfill(h, store, loaded.value, fit, fitCalibrator, parse, parseDate);
  }

  /** Every loaded row has five weather values and five lag values. */
  lemma LoadedShaped(file: Option<Table>, parseDate: DateParser)
    requires file.Some? ==> WellFormed(file.value)
    requires LoadHistory(file, parseDate).Ok?
    ensures var ss := LoadHistory(file, parseDate).value;
      forall p :: 0 <= p < |ss| ==> Shaped(ss[p])
  {
  }

  /** main after load_history: train, then backfill with the new models. */
  method TrainAndBackfill(h: HistoryFile, store: ModelStore, ss: seq<Sample>, fit: Fitter, fitCalibrator: CalibratorFitter,
                          parse: TextParser, parseDate: DateParser) returns (r: Result<bool>)
    requires h.Valid()
    requires forall p :: 0 <= p < |ss| ==> Shaped(ss[p])
    modifies h, store
    ensures h.Valid() && h.present == old(h.present)
    ensures TrainedThenBackfilled(old(h.Snapshot()), ss, fit, fitCalibrator, parse, parseDate, r, h.Snapshot())
    ensures StoreAfterTraining(ss, fit, fitCalibrator, old(store.fog), old(store.castle), old(store.calibrator),
                               store.fog, store.castle, store.calibrator)
  {
    var models := TrainModels(store, ss, fit, fitCalibrator);
    if models.Err? {
      return Err(models.error);
    }
    r := BackfillHistory(h, models.value, parse, parseDate);
  }

  /** The model files after training: untouched when the fog target has
      one label, only the fog model saved when the castle target has one,
      all three replaced otherwise. */
  ghost predicate StoreAfterTraining(ss: seq<Sample>, fit: Fitter, fitCalibrator: CalibratorFitter,
                                     fog0: Option<Classifier>, castle0: Option<Classifier>,
                                     cal0: Option<PredictModel.CalibratorArtifact>,
                                     fog: Option<Classifier>, castle: Option<Classifier>,
                                     cal: Option<PredictModel.CalibratorArtifact>)
  {
    && (forall p :: 0 <= p < |ss| ==> Shaped(ss[p]))
    && (!TwoLabels(FogLabels(ss)) ==> fog == fog0 && castle == castle0 && cal == cal0)
    && (TwoLabels(FogLabels(ss)) && !TwoLabels(CastleLabels(ss)) ==>
          fog == Some(FogFit(ss, fit).value) && castle == castle0 && cal == cal0)
    && (Trained(ss, fit, fitCalibrator).Ok? ==>
          var m := Trained(ss, fit, fitCalibrator).value;
          fog == Some(m.fog) && castle == Some(m.castle) && cal == m.calibrator)
  }

  /** The run's result and the file once the rows are loaded: unchanged
      after a training error; after training, as BackfillHistory leaves it. */
  ghost predicate TrainedThenBackfilled(file: Option<Table>, ss: seq<Sample>, fit: Fitter, fitCalibrator: CalibratorFitter,
                                        parse: TextParser, parseDate: DateParser, r: Result<bool>, after: Option<Table>)
    requires file.Some? ==> WellFormed(file.value)
  {
    && (forall p :: 0 <= p < |ss| ==> Shaped(ss[p]))
    && (Trained(ss, fit, fitCalibrator).Err? ==> r == Err(SingleLabel) && after == file)
    && (Trained(ss, fit, fitCalibrator).Ok? ==>
          var b := Backfill(file, Trained(ss, fit, fitCalibrator).value, parse, parseDate);
          && (r.Err? <==> b.Err?)
          && (b.Ok? && b.value.Some? ==> after == Some(b.value.value))
          && (b.Err? || b.value.None? ==> after == file))
  }

  /** Two sorted positions hold different rows. */
  lemma OrderDistinct(t: Table, parseDate: DateParser, a: nat, b: nat)
    requires WellFormed(t) && "date" in t.columns
    requires a < |t.rows| && b < |t.rows|
    requires SortedOrder(DateKeys(t, parseDate))[a] == SortedOrder(DateKeys(t, parseDate))[b]
    ensures a == b
  {
  }
}
