/** The pipeline's history upsert (main.py, append_history): the day's
    weather and predictions are written into history.csv, updating the
    first row of that date or appending a new one, and leaving the
    operator's observation columns alone. */
module MainPipeline {
  import opened Common
  import opened HistoryTable

  /** `["date"] + sorted(float_cols) + sorted(int_cols) + sorted(string_cols)`. */
  const RequiredColumns: seq<string> := [
    "date",
    "castle_event_probability", "castle_probability", "castle_score", "cloud", "dew_point",
    "dew_spread", "fog_probability", "fog_score", "humidity", "rain", "temp", "wind",
    "castle_visible", "fog_observed",
    "event", "note", "updated_at"]

  lemma RequiredColumnsDistinct()
    ensures Distinct(RequiredColumns)
  {
  }

  // ----- column normalisation -----

  /** The required columns `have` lacks, in required order. */
  function Missing(have: seq<string>, req: seq<string>): (m: seq<string>)
    ensures forall c :: c in m <==> c in req && c !in have
    ensures Distinct(req) ==> Distinct(m)
    ensures |m| <= |req|
    ensures (forall c :: c in req ==> c in have) ==> m == []
  {
    if req == [] then []
    else
      var init := Missing(have, req[..|req| - 1]);
      var last := req[|req| - 1];
      assert forall c :: c in req <==> c in req[..|req| - 1] || c == last;
      if last in have then init
      else
        assert forall j :: 0 <= j < |req| - 1 ==> req[..|req| - 1][j] == req[j];
        init + [last]
  }

  lemma SetOfConcat(a: seq<string>, b: seq<string>)
    ensures (set c | c in a + b) == (set c | c in a) + (set c | c in b)
  {
  }

  /** Each column of `req` the table lacks appended, every cell of it missing. */
  function AddColumns(t: Table, req: seq<string>): (n: Table)
    requires WellFormed(t) && Distinct(req)
    ensures WellFormed(n)
    ensures n.columns == t.columns + Missing(t.columns, req)
    ensures |n.rows| == |t.rows|
    ensures forall r :: 0 <= r < |t.rows| ==> n.rows[r] == t.rows[r] + BlankRow(Missing(t.columns, req))
  {
    var miss := Missing(t.columns, req);
    var n := Table(t.columns + miss, seq(|t.rows|, r requires 0 <= r < |t.rows| => t.rows[r] + BlankRow(miss)));
    SetOfConcat(t.columns, miss);
    forall r | 0 <= r < |n.rows| ensures n.rows[r].Keys == set c | c in n.columns {
      assert n.rows[r].Keys == t.rows[r].Keys + BlankRow(miss).Keys;
    }
    assert Distinct(n.columns) by {
      forall i, j | 0 <= i < j < |n.columns| ensures n.columns[i] != n.columns[j] {
        if j >= |t.columns| && i < |t.columns| {
          assert n.columns[j] in miss;
        }
      }
    }
    n
  }

  /** The table after the normalisation of append_history: an empty table
      (no rows or no columns) is replaced by one with only the required
      columns; then each required column the table lacks is appended, with
      every cell missing. Existing cells are kept (their dtype coercion is
      not modelled). */
  function Normalise(t: Table): (n: Table)
    requires WellFormed(t)
    ensures WellFormed(n)
    ensures forall c :: c in RequiredColumns ==> c in n.columns
    ensures IsEmpty(t) ==> n == Table(RequiredColumns, [])
    ensures !IsEmpty(t) ==> |n.columns| >= |t.columns| && n.columns[..|t.columns|] == t.columns && |n.rows| == |t.rows|
    ensures !IsEmpty(t) ==> forall c :: c in n.columns <==> c in t.columns || c in RequiredColumns
    ensures !IsEmpty(t) ==> forall r, c :: 0 <= r < |t.rows| && c in t.rows[r] ==> n.rows[r][c] == t.rows[r][c]
    ensures !IsEmpty(t) ==> forall r, c :: 0 <= r < |t.rows| && c in n.rows[r] && c !in t.columns ==> n.rows[r][c] == Blank
  {
    RequiredColumnsDistinct();
    if IsEmpty(t) then Table(RequiredColumns, [])
    else AddColumns(t, RequiredColumns)
  }

  // ----- the record -----

  /** `to_float(latest_weather.get(col))` for a weather.csv cell: a missing
      column becomes NA; a cell float() rejects raises. */
  function WeatherCell(row: Row, col: string, parse: TextParser): (c: Option<Cell>)
    ensures col !in row ==> c == Some(Blank)
    ensures col in row ==> (c.None? <==> FloatOf(row[col], parse).None?)
    ensures col in row && c.Some? ==> c.value == CellOf(FloatOf(row[col], parse).value)
  {
    if col !in row then Some(Blank)
    else match FloatOf(row[col], parse)
      case None => None
      case Some(f) => Some(CellOf(f))
  }

  /** `to_float(feed.get(key))`: an absent key or a null becomes NA. */
  function FeedCell(doc: Document, key: string, parse: TextParser): (c: Option<Cell>)
    ensures key !in doc || doc[key] == JNull ==> c == Some(Blank)
    ensures key in doc && doc[key] != JNull ==> (c.None? <==> JsonFloat(doc[key], parse).None?)
    ensures key in doc && doc[key] != JNull && c.Some? ==> c.value == CellOf(JsonFloat(doc[key], parse).value)
  {
    if key !in doc || doc[key] == JNull then Some(Blank)
    else match JsonFloat(doc[key], parse)
      case None => None
      case Some(f) => Some(CellOf(f))
  }

  /** `feed.get("event", "") or ""`: the empty string for a missing or falsy value. */
  function EventCell(doc: Document, show: Shower): (c: Cell)
    ensures "event" !in doc || !Truthy(doc["event"]) ==> c == Text("")
    ensures "event" in doc && doc["event"].JStr? ==> c == Text(doc["event"].s)
  {
    if "event" !in doc || !Truthy(doc["event"]) then Text("") else Text(JsonStr(doc["event"], show))
  }

  const WeatherKeys: seq<string> := ["temp", "humidity", "wind", "cloud", "rain"]
  const FeedNumberKeys: seq<string> := [
    "fog_probability", "castle_probability", "castle_event_probability",
    "fog_score", "castle_score", "dew_point", "dew_spread"]

  /** The keys of `record`, in insertion order. */
  const RecordKeys: seq<string> := ["date"] + WeatherKeys + FeedNumberKeys + ["event", "updated_at"]

  lemma RecordKeysRequired()
    ensures |RecordKeys| == 15
    ensures forall k :: k in RecordKeys ==> k in RequiredColumns
    ensures "fog_observed" !in RecordKeys && "castle_visible" !in RecordKeys && "note" !in RecordKeys
  {
  }

  lemma RecordKeyGroupsDisjoint()
    ensures forall c :: c in WeatherKeys ==> c !in FeedNumberKeys && c != "date" && c != "event" && c != "updated_at"
    ensures forall c :: c in FeedNumberKeys ==> c != "date" && c != "event" && c != "updated_at"
  {
  }

  /** Every to_float call of the record succeeds. */
  predicate Convertible(doc: Document, weatherRow: Row, parse: TextParser) {
    && (forall c :: c in WeatherKeys ==> WeatherCell(weatherRow, c, parse).Some?)
    && (forall c :: c in FeedNumberKeys ==> FeedCell(doc, c, parse).Some?)
  }

  /** The five weather cells of the record. */
  function WeatherCells(weatherRow: Row, parse: TextParser): (m: map<string, Cell>)
    requires forall c :: c in WeatherKeys ==> WeatherCell(weatherRow, c, parse).Some?
    ensures forall k :: k in m <==> k in WeatherKeys
    ensures forall c :: c in WeatherKeys ==> m[c] == WeatherCell(weatherRow, c, parse).value
  {
    map c | c in WeatherKeys :: WeatherCell(weatherRow, c, parse).value
  }

  /** The seven feed numbers of the record. */
  function NumberCells(doc: Document, parse: TextParser): (m: map<string, Cell>)
    requires forall c :: c in FeedNumberKeys ==> FeedCell(doc, c, parse).Some?
    ensures forall k :: k in m <==> k in FeedNumberKeys
    ensures forall c :: c in FeedNumberKeys ==> m[c] == FeedCell(doc, c, parse).value
  {
    map c | c in FeedNumberKeys :: FeedCell(doc, c, parse).value
  }

  /** `record`: the feed date, the five weather values of the last
      weather.csv row, the seven feed numbers, the event ("" when falsy) and
      the update time, fifteen keys in all; None where a float() raises.
      The cells are stated by RecordCells. */
  function BuildRecord(doc: Document, weatherRow: Row, now: string, parse: TextParser, show: Shower)
    : (rec: Option<map<string, Cell>>)
    requires "date" in doc
    ensures rec.Some? <==> Convertible(doc, weatherRow, parse)
    ensures rec.Some? ==> forall k :: k in rec.value <==> k in RecordKeys
  {
    if !Convertible(doc, weatherRow, parse) then None
    else
      var fixed := map["date" := Text(JsonStr(doc["date"], show)), "event" := EventCell(doc, show),
                       "updated_at" := Text(now)];
      Some(WeatherCells(weatherRow, parse) + NumberCells(doc, parse) + fixed)
  }

  /** The record's date, event and update time. */
  lemma RecordFixedCells(doc: Document, weatherRow: Row, now: string, parse: TextParser, show: Shower)
    requires "date" in doc && Convertible(doc, weatherRow, parse)
    ensures var rec := BuildRecord(doc, weatherRow, now, parse, show).value;
      && rec["date"] == Text(JsonStr(doc["date"], show))
      && rec["event"] == EventCell(doc, show) && rec["updated_at"] == Text(now)
  {
  }

  /** The record's weather cells come from weather.csv and its numbers from
      the feed. */
  lemma RecordCells(doc: Document, weatherRow: Row, now: string, parse: TextParser, show: Shower)
    requires "date" in doc && Convertible(doc, weatherRow, parse)
    ensures var rec := BuildRecord(doc, weatherRow, now, parse, show).value;
      && (forall c :: c in WeatherKeys ==> rec[c] == WeatherCell(weatherRow, c, parse).value)
      && (forall c :: c in FeedNumberKeys ==> rec[c] == FeedCell(doc, c, parse).value)
  {
    var numbers := NumberCells(doc, parse);
    RecordKeyGroupsDisjoint();
    forall c | c in WeatherKeys ensures BuildRecord(doc, weatherRow, now, parse, show).value[c] == WeatherCell(weatherRow, c, parse).value {
      assert c !in numbers;
    }
  }

  /** `record` restricted to the first keys of its insertion order. */
  function Restrict(record: map<string, Cell>, keys: seq<string>): (m: map<string, Cell>)
    ensures forall k :: k in m <==> k in keys && k in record
    ensures forall k :: k in m ==> m[k] == record[k]
  {
    map k | k in keys && k in record :: record[k]
  }

  // ----- the upsert -----

  /** `history_df.index[history_df["date"] == date][0]`: the first row whose
      date is that string (a missing date never matches). */
  function FirstMatch(t: Table, date: string): (r: Option<nat>)
    requires WellFormed(t) && "date" in t.columns
    ensures r.None? <==> forall i :: 0 <= i < |t.rows| ==> t.rows[i]["date"] != Text(date)
    ensures r.Some? ==> r.value < |t.rows| && t.rows[r.value]["date"] == Text(date)
    ensures r.Some? ==> forall i :: 0 <= i < r.value ==> t.rows[i]["date"] != Text(date)
  {
    FirstMatchFrom(t, date, 0)
  }

  function FirstMatchFrom(t: Table, date: string, from: nat): (r: Option<nat>)
    requires WellFormed(t) && "date" in t.columns && from <= |t.rows|
    ensures r.None? <==> forall i :: from <= i < |t.rows| ==> t.rows[i]["date"] != Text(date)
    ensures r.Some? ==> from <= r.value < |t.rows| && t.rows[r.value]["date"] == Text(date)
    ensures r.Some? ==> forall i :: from <= i < r.value ==> t.rows[i]["date"] != Text(date)
    decreases |t.rows| - from
  {
    if from == |t.rows| then None
    else if t.rows[from]["date"] == Text(date) then Some(from)
    else FirstMatchFrom(t, date, from + 1)
  }

  /** The defaults a new row gets before the record is written over it. */
  const NewRowDefaults: map<string, Cell> :=
    map["fog_observed" := Num(0.0), "castle_visible" := Num(0.0), "note" := Text("")]

  /** A record's keys are columns of the normalised table, and its date is a string. */
  predicate Fits(t: Table, record: map<string, Cell>) {
    && "date" in record && record["date"].Text?
    && (forall k :: k in record ==> k in t.columns)
    && (forall c :: c in RequiredColumns ==> c in t.columns)
  }

  /** The upsert of append_history: for a date already present the first
      such row gets the record's cells; otherwise a row is appended with NA
      everywhere, the observation defaults, and the record. */
  function UpsertPredicted(t: Table, record: map<string, Cell>): (u: Table)
    requires WellFormed(t) && Fits(t, record)
    ensures WellFormed(u) && u.columns == t.columns
  {
    match FirstMatch(t, record["date"].s)
    case Some(i) => Table(t.columns, t.rows[i := t.rows[i] + record])
    case None =>
      assert forall c :: c in NewRowDefaults ==> c in RequiredColumns;
      Table(t.columns, t.rows + [BlankRow(t.columns) + NewRowDefaults + record])
  }

  /** For a date already present, exactly the record's keys of the first
      matching row change; every other row and every other cell (the
      operator's fog_observed, castle_visible and note among them) stays. */
  lemma UpsertUpdatesFirstMatch(t: Table, record: map<string, Cell>)
    requires WellFormed(t) && Fits(t, record)
    requires FirstMatch(t, record["date"].s).Some?
    ensures var i := FirstMatch(t, record["date"].s).value;
      var u := UpsertPredicted(t, record);
      && |u.rows| == |t.rows|
      && (forall j :: 0 <= j < |t.rows| && j != i ==> u.rows[j] == t.rows[j])
      && (forall k :: k in record ==> u.rows[i][k] == record[k])
      && (forall c :: c in t.columns && c !in record ==> u.rows[i][c] == t.rows[i][c])
  {
  }

  /** For a new date, one row is appended: fog_observed 0, castle_visible 0,
      an empty note, the record's cells, and NA in every other column. */
  lemma UpsertAppendsNewDate(t: Table, record: map<string, Cell>)
    requires WellFormed(t) && Fits(t, record)
    requires FirstMatch(t, record["date"].s).None?
    requires "fog_observed" !in record && "castle_visible" !in record && "note" !in record
    ensures var u := UpsertPredicted(t, record);
      && |u.rows| == |t.rows| + 1
      && u.rows[..|t.rows|] == t.rows
      && u.rows[|t.rows|]["fog_observed"] == Num(0.0) && u.rows[|t.rows|]["castle_visible"] == Num(0.0)
      && u.rows[|t.rows|]["note"] == Text("")
      && (forall k :: k in record ==> u.rows[|t.rows|][k] == record[k])
      && (forall c :: c in t.columns && c !in record && c !in NewRowDefaults ==> u.rows[|t.rows|][c] == Blank)
  {
  }

  /** After an update, the same date first matches the same row. */
  lemma FirstMatchAfterUpdate(t: Table, record: map<string, Cell>)
    requires WellFormed(t) && Fits(t, record)
    requires FirstMatch(t, record["date"].s).Some?
    ensures FirstMatch(UpsertPredicted(t, record), record["date"].s) == FirstMatch(t, record["date"].s)
  {
    var date := record["date"].s;
    var i := FirstMatch(t, date).value;
    var u := UpsertPredicted(t, record);
    forall j | 0 <= j < i ensures u.rows[j]["date"] != Text(date) {
      assert u.rows[j] == t.rows[j];
    }
    assert u.rows[i]["date"] == record["date"];
  }

  /** After an append, the same date first matches the appended row. */
  lemma FirstMatchAfterAppend(t: Table, record: map<string, Cell>)
    requires WellFormed(t) && Fits(t, record)
    requires FirstMatch(t, record["date"].s).None?
    ensures FirstMatch(UpsertPredicted(t, record), record["date"].s) == Some(|t.rows|)
  {
    var date := record["date"].s;
    var u := UpsertPredicted(t, record);
    forall j | 0 <= j < |t.rows| ensures u.rows[j]["date"] != Text(date) {
      assert u.rows[j] == t.rows[j];
    }
    assert u.rows[|t.rows|]["date"] == record["date"];
  }

  /** Writing a record and then one with the same keys leaves what the
      second alone would. */
  lemma OverwriteSameKeys(row: Row, r1: map<string, Cell>, r2: map<string, Cell>)
    requires r1.Keys == r2.Keys
    ensures row + r1 + r2 == row + r2
  {
  }

  /** Re-running the upsert for the same date with a record of the same keys
      (feed and weather unchanged, a new updated_at) gives the same table as
      running it once with the second record: the row the first run wrote or
      appended is the one the second run overwrites, key for key. */
  lemma UpsertRerun(t: Table, r1: map<string, Cell>, r2: map<string, Cell>)
    requires WellFormed(t) && Fits(t, r1) && Fits(t, r2)
    requires r1.Keys == r2.Keys && r1["date"] == r2["date"]
    ensures UpsertPredicted(UpsertPredicted(t, r1), r2) == UpsertPredicted(t, r2)
  {
    var date := r1["date"].s;
    if FirstMatch(t, date).Some? {
      FirstMatchAfterUpdate(t, r1);
      OverwriteSameKeys(t.rows[FirstMatch(t, date).value], r1, r2);
    } else {
      FirstMatchAfterAppend(t, r1);
      OverwriteSameKeys(BlankRow(t.columns) + NewRowDefaults, r1, r2);
    }
  }

  // ----- append_history -----

  datatype Outcome = Skipped | Updated(index: nat) | Appended

  /** The feed has a truthy date. */
  predicate HasDate(feed: Document) {
    "date" in feed && Truthy(feed["date"])
  }

  /** The record append_history writes, when the feed has a date and
      weather.csv has a row. */
  function RecordFor(feed: Document, weather: Table, now: string, parse: TextParser, show: Shower): Option<map<string, Cell>>
    requires HasDate(feed) && !IsEmpty(weather)
  {
    BuildRecord(feed, weather.rows[|weather.rows| - 1], now, parse, show)
  }

  /** append_history on the history file: skipped when feed.json or
      history.csv is missing, when the feed has no truthy date or when
      weather.csv has no rows; a missing weather.csv or a value float()
      rejects raises and leaves the file alone; otherwise the file becomes
      the normalised table with the record upserted. */
  method AppendHistory(h: HistoryFile, feed: Option<Document>, weather: Option<Table>, now: string,
                       parse: TextParser, show: Shower) returns (r: Result<Outcome>)
    requires h.Valid()
    requires weather.Some? ==> WellFormed(weather.value)
    modifies h
    ensures h.Valid() && h.present == old(h.present)
    ensures feed.None? || !old(h.present) ==> r == Ok(Skipped)
    ensures feed.Some? && old(h.present) && !HasDate(feed.value) ==> r == Ok(Skipped)
    ensures feed.Some? && old(h.present) && HasDate(feed.value) && weather.None? ==> r == Err(FileMissing)
    ensures feed.Some? && old(h.present) && HasDate(feed.value) && weather.Some? && IsEmpty(weather.value) ==> r == Ok(Skipped)
    ensures r.Err? || r == Ok(Skipped) ==> h.Snapshot() == old(h.Snapshot())
    ensures r.Ok? && r.value != Skipped ==>
      && feed.Some? && HasDate(feed.value) && weather.Some? && !IsEmpty(weather.value)
      && RecordFor(feed.value, weather.value, now, parse, show).Some?
      && h.Snapshot() == Some(UpsertPredicted(Normalise(old(Table(h.columns, h.rows))),
                                              RecordFor(feed.value, weather.value, now, parse, show).value))
  {
    if feed.None? || !h.present {
      return Ok(Skipped);
    }
    var doc := feed.value;
    if !HasDate(doc) {
      return Ok(Skipped);
    }
    if weather.None? {
      return Err(FileMissing);
    }
    var w := weather.value;
    if IsEmpty(w) {
      return Ok(Skipped);
    }
    var record := RecordFor(doc, w, now, parse, show);
    if record.None? {
      return Err(MalformedRecord);
    }
    NormaliseColumns(h);
    RecordKeysRequired();
    var outcome := Upsert(h, record.value);
    r := Ok(outcome);
  }

  /** The normalisation step: replace an empty table, then add each missing
      required column. */
  method NormaliseColumns(h: HistoryFile)
    requires h.Valid()
    modifies h
    ensures h.Valid() && h.present == old(h.present)
    ensures Table(h.columns, h.rows) == Normalise(old(Table(h.columns, h.rows)))
  {
    if IsEmpty(Table(h.columns, h.rows)) {
      h.columns := RequiredColumns;
      h.rows := [];
      RequiredColumnsDistinct();
    } else {
      RequiredColumnsDistinct();
      AddMissingColumns(h, RequiredColumns);
    }
  }

  /** `for key in required_columns: if key not in history_df.columns:
      history_df[key] = pd.NA`, one column at a time. */
  method AddMissingColumns(h: HistoryFile, req: seq<string>)
    requires h.Valid() && Distinct(req)
    modifies h
    ensures h.present == old(h.present)
    ensures Table(h.columns, h.rows) == AddColumns(old(Table(h.columns, h.rows)), req)
  {
    ghost var base := Table(h.columns, h.rows);
    assert req[..0] == [];
    AddNoColumns(base);
    var i := 0;
    while i < |req|
      invariant 0 <= i <= |req|
      invariant h.present == old(h.present)
      invariant Distinct(req[..i])
      invariant Table(h.columns, h.rows) == AddColumns(base, req[..i])
    {
      var key := req[i];
      assert req[..i + 1] == req[..i] + [key];
      assert Distinct(req[..i + 1]);
      AddColumnsSnoc(base, req[..i], key);
      AddColumnIfMissing(h, key);
      i := i + 1;
    }
    assert req[..i] == req;
  }

  /** `if key not in history_df.columns: history_df[key] = pd.NA`. */
  method AddColumnIfMissing(h: HistoryFile, key: string)
    modifies h
    ensures h.present == old(h.present)
    ensures Table(h.columns, h.rows) == AddColumn(old(Table(h.columns, h.rows)), key)
  {
    if key !in h.columns {
      var rows := h.rows;
      h.columns := h.columns + [key];
      h.rows := seq(|rows|, r requires 0 <= r < |rows| => rows[r][key := Blank]);
    }
  }

  /** One column added at the end, every cell of it missing, unless the
      table has it already. */
  function AddColumn(t: Table, key: string): (n: Table)
    ensures key in t.columns ==> n == t
    ensures key !in t.columns ==> n.columns == t.columns + [key] && |n.rows| == |t.rows|
    ensures key !in t.columns ==> forall r :: 0 <= r < |t.rows| ==> n.rows[r] == t.rows[r][key := Blank]
  {
    if key in t.columns then t
    else Table(t.columns + [key], seq(|t.rows|, r requires 0 <= r < |t.rows| => t.rows[r][key := Blank]))
  }

  /** Adding no column leaves the table as it is. */
  lemma AddNoColumns(t: Table)
    requires WellFormed(t)
    ensures AddColumns(t, []) == t
  {
    var n := AddColumns(t, []);
    forall r | 0 <= r < |t.rows| ensures n.rows[r] == t.rows[r] {
      assert BlankRow([]) == map[];
    }
    assert n.rows == t.rows;
  }

  /** The columns `have` lacks from `req + [key]`. */
  lemma MissingSnoc(have: seq<string>, req: seq<string>, key: string)
    ensures Missing(have, req + [key]) == if key in have then Missing(have, req) else Missing(have, req) + [key]
  {
    var full := req + [key];
    assert full[..|full| - 1] == req;
  }

  lemma UnionUpdate(a: Row, b: Row, k: string, v: Cell)
    ensures a + b[k := v] == (a + b)[k := v]
  {
  }

  lemma BlankRowSnoc(cols: seq<string>, key: string)
    ensures BlankRow(cols + [key]) == BlankRow(cols)[key := Blank]
  {
  }

  /** Adding the columns of `req + [key]` is adding those of `req`, then `key`. */
  lemma AddColumnsSnoc(t: Table, req: seq<string>, key: string)
    requires WellFormed(t) && Distinct(req) && Distinct(req + [key])
    ensures AddColumns(t, req + [key]) == AddColumn(AddColumns(t, req), key)
  {
    var m := Missing(t.columns, req);
    assert key !in req by {
      forall j | 0 <= j < |req| ensures req[j] != key {
        assert (req + [key])[j] == req[j] && (req + [key])[|req|] == key;
      }
    }
    MissingSnoc(t.columns, req, key);
    if key !in t.columns {
      var lhs := AddColumns(t, req + [key]);
      var rhs := AddColumn(AddColumns(t, req), key);
      BlankRowSnoc(m, key);
      forall r | 0 <= r < |t.rows| ensures lhs.rows[r] == rhs.rows[r] {
        UnionUpdate(t.rows[r], BlankRow(m), key, Blank);
      }
      assert lhs.rows == rhs.rows;
    }
  }

  /** The update-or-append step on the normalised file. */
  method Upsert(h: HistoryFile, record: map<string, Cell>) returns (o: Outcome)
    requires h.Valid() && Fits(Table(h.columns, h.rows), record)
    requires forall k :: k in record <==> k in RecordKeys
    modifies h
    ensures h.Valid() && h.present == old(h.present)
    ensures o != Skipped
    ensures Table(h.columns, h.rows) == UpsertPredicted(old(Table(h.columns, h.rows)), record)
  {
    var idx := FirstMatch(Table(h.columns, h.rows), record["date"].s);
    if idx.Some? {
      WriteRecord(h, idx.value, RecordKeys, record);
      assert Restrict(record, RecordKeys) == record;
      o := Updated(idx.value);
    } else {
      h.rows := h.rows + [BlankRow(h.columns) + NewRowDefaults + record];
      o := Appended;
    }
  }

  /** `for key, value in record.items(): history_df.at[idx, key] = value`,
      the keys taken in insertion order: row `idx` gets the record's cell
      under each key, and nothing else changes. */
  method WriteRecord(h: HistoryFile, idx: nat, keys: seq<string>, record: map<string, Cell>)
    requires h.Valid() && idx < |h.rows|
    requires forall k :: k in keys ==> k in record && k in h.columns
    modifies h
    ensures h.Valid() && h.present == old(h.present) && h.columns == old(h.columns)
    ensures h.rows == old(h.rows)[idx := old(h.rows)[idx] + Restrict(record, keys)]
  {
    ghost var row := h.rows[idx];
    assert Restrict(record, keys[..0]) == map[];
    assert row + map[] == row;
    assert h.rows == h.rows[idx := row];
    var i := 0;
    while i < |keys|
      invariant 0 <= i <= |keys|
      invariant h.present == old(h.present) && h.columns == old(h.columns)
      invariant h.rows == old(h.rows)[idx := row + Restrict(record, keys[..i])]
    {
      var key := keys[i];
      RestrictSnoc(record, keys, i);
      UnionUpdate(row, Restrict(record, keys[..i]), key, record[key]);
      h.rows := h.rows[idx := h.rows[idx][key := record[key]]];
      i := i + 1;
    }
    assert keys[..i] == keys;
    assert (row + Restrict(record, keys)).Keys == row.Keys;
  }

  lemma RestrictSnoc(record: map<string, Cell>, keys: seq<string>, i: nat)
    requires i < |keys| && keys[i] in record
    ensures Restrict(record, keys[..i + 1]) == Restrict(record, keys[..i])[keys[i] := record[keys[i]]]
  {
    assert forall k :: k in keys[..i + 1] <==> k in keys[..i] || k == keys[i];
  }
}
