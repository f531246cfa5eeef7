/** The Streamlit dashboard (dashboard.py), reduced to its data logic:
    loading history.csv for display, the heading of the forecast panel,
    the lookup that fills the observation form when a date is chosen, and
    the save that writes an observation into history.csv. */
module Dashboard {
  import opened Common
  import opened HistoryTable
  import Ordering
  import MainPipeline

  const FeatureColumns: seq<string> := ["temp", "humidity", "wind", "cloud", "rain"]

  /** The columns of the table load_history returns when history.csv does
      not exist. */
  const DefaultColumns: seq<string> := ["date"] + FeatureColumns + ["fog_observed", "castle_visible"]

  // ----- load_history -----

  /** `pd.to_datetime` of one date cell, without coercion: a missing value
      becomes NaT, a string is parsed, and a string that does not parse
      (or a bare number) raises. */
  function ToDatetime(c: Cell, parseDate: DateParser): (r: Result<Cell>)
    ensures r.Err? <==> c.Num? || (c.Text? && parseDate(c.s).None?)
    ensures r.Err? ==> r.error == MalformedRecord
    ensures r.Ok? ==> (r.value.Blank? || r.value.Day?) && DateOf(r.value, parseDate) == DateOf(c, parseDate)
  {
    match c
    case Blank => Ok(Blank)
    case Day(d) => Ok(Day(d))
    case Num(_) => Err(MalformedRecord)
    case Text(s) =>
      match parseDate(s)
      case None => Err(MalformedRecord)
      case Some(d) => Ok(Day(d))
  }

  /** Every date cell of the table converts. */
  predicate DatesParse(t: Table, parseDate: DateParser)
    requires WellFormed(t) && "date" in t.columns
  {
    forall i :: 0 <= i < |t.rows| ==> ToDatetime(t.rows[i]["date"], parseDate).Ok?
  }

  /** A row with its date cell converted. */
  function Converted(row: Row, parseDate: DateParser): (r: Row)
    requires "date" in row && ToDatetime(row["date"], parseDate).Ok?
    ensures r.Keys == row.Keys
  {
    row["date" := ToDatetime(row["date"], parseDate).value]
  }

  /** `df["date"] = pd.to_datetime(df["date"]); df.sort_values("date")`. */
  function SortByDate(t: Table, parseDate: DateParser): (u: Table)
    requires WellFormed(t) && "date" in t.columns && DatesParse(t, parseDate)
    ensures WellFormed(u) && u.columns == t.columns && |u.rows| == |t.rows|
    ensures var ord := Ordering.SortedOrder(DateKeys(t, parseDate));
      forall p :: 0 <= p < |u.rows| ==> u.rows[p] == Converted(t.rows[ord[p]], parseDate)
  {
    var ord := Ordering.SortedOrder(DateKeys(t, parseDate));
    Table(t.columns, seq(|t.rows|, p requires 0 <= p < |t.rows| => Converted(t.rows[ord[p]], parseDate)))
  }

  /** load_history: the empty default table when the file does not exist,
      an empty table as it is, and otherwise the table with its dates
      converted and its rows sorted by date (KeyError without a "date"
      column, ValueError for a date that does not parse). */
  function LoadHistory(file: Option<Table>, parseDate: DateParser): (r: Result<Table>)
    requires file.Some? ==> WellFormed(file.value)
    ensures r.Ok? ==> WellFormed(r.value)
    ensures file.None? ==> r == Ok(Table(DefaultColumns, []))
    ensures file.Some? && IsEmpty(file.value) ==> r == Ok(file.value)
    ensures file.Some? && !IsEmpty(file.value) && "date" !in file.value.columns ==> r == Err(MissingColumns)
    ensures file.Some? && !IsEmpty(file.value) && "date" in file.value.columns ==>
      (r.Err? <==> !DatesParse(file.value, parseDate)) && (r.Err? ==> r.error == MalformedRecord)
  {
    match file
    case None =>
      assert Distinct(DefaultColumns);
      Ok(Table(DefaultColumns, []))
    case Some(t) =>
      if IsEmpty(t) then Ok(t)
      else if "date" !in t.columns then Err(MissingColumns)
      else if !DatesParse(t, parseDate) then Err(MalformedRecord)
      else Ok(SortByDate(t, parseDate))
  }

  /** What load_history promises of a non-empty file: the same columns, and
      the rows are the file's rows, each exactly once, with dates
      converted, in an order where dates ascend (NaT last) and equal dates
      keep their file order. */
  lemma LoadHistorySorts(t: Table, parseDate: DateParser)
    requires WellFormed(t) && !IsEmpty(t)
    requires LoadHistory(Some(t), parseDate).Ok?
    ensures var u := LoadHistory(Some(t), parseDate).value;
      && "date" in t.columns && DatesParse(t, parseDate)
      && u.columns == t.columns
      && exists ord :: Ordering.IsSortedOrder(DateKeys(t, parseDate), ord) &&
           forall p :: 0 <= p < |u.rows| ==> u.rows[p] == Converted(t.rows[ord[p]], parseDate)
  {
    var ord := Ordering.SortedOrder(DateKeys(t, parseDate));
    assert Ordering.IsSortedOrder(DateKeys(t, parseDate), ord);
  }

  /** Read top to bottom, the loaded dates never decrease: every date cell
      is a day or NaT, and NaT rows come last. */
  lemma LoadedDatesAscend(t: Table, parseDate: DateParser)
    requires WellFormed(t) && !IsEmpty(t)
    requires LoadHistory(Some(t), parseDate).Ok?
    ensures var u := LoadHistory(Some(t), parseDate).value;
      && (forall p :: 0 <= p < |u.rows| ==> u.rows[p]["date"].Day? || u.rows[p]["date"].Blank?)
      && forall a, b :: 0 <= a < b < |u.rows| ==>
           Ordering.DateLe(DateOf(u.rows[a]["date"], parseDate), DateOf(u.rows[b]["date"], parseDate))
  {
    var u := LoadHistory(Some(t), parseDate).value;
    var keys := DateKeys(t, parseDate);
    var ord := Ordering.SortedOrder(keys);
    assert Ordering.InRange(keys, ord);
    forall p | 0 <= p < |u.rows|
      ensures DateOf(u.rows[p]["date"], parseDate) == keys[ord[p]]
    {
      assert u.rows[p] == Converted(t.rows[ord[p]], parseDate);
    }
  }

  // ----- render_metrics -----

  datatype Title = TodayTitle | TomorrowTitle | DateTitle(day: int) | GenericTitle

  /** The panel's heading and its "target date" caption (None for "N/A"). */
  datatype Heading = Heading(title: Title, dateLabel: Option<int>)

  /** `feed_data and feed_data.get("date")`: a feed with a truthy date. */
  predicate HasFeedDate(feed: Option<Document>) {
    feed.Some? && "date" in feed.value && Truthy(feed.value["date"])
  }

  /** render_metrics' heading: for a feed date equal to today "today's
      forecast", for today + 1 "tomorrow's forecast", for any other date
      the date itself; a generic title without a date. fromisoformat
      raises for a string that is not a date and for a value that is not
      a string. */
  function RenderHeading(feed: Option<Document>, today: int, parseIsoDate: string -> Option<int>): (r: Result<Heading>)
    ensures !HasFeedDate(feed) ==> r == Ok(Heading(GenericTitle, None))
    ensures HasFeedDate(feed) ==>
      (r.Err? <==> !(feed.value["date"].JStr? && parseIsoDate(feed.value["date"].s).Some?))
    ensures r.Err? ==> r.error == MalformedRecord
    ensures HasFeedDate(feed) && r.Ok? ==>
      var d := parseIsoDate(feed.value["date"].s).value;
      && r.value.dateLabel == Some(d)
      && (r.value.title == TodayTitle <==> d == today)
      && (r.value.title == TomorrowTitle <==> d == today + 1)
      && (r.value.title.DateTitle? <==> d != today && d != today + 1)
      && (r.value.title.DateTitle? ==> r.value.title.day == d)
  {
    if !HasFeedDate(feed) then Ok(Heading(GenericTitle, None))
    else
      var v := feed.value["date"];
      if !v.JStr? then Err(MalformedRecord)
      else
        match parseIsoDate(v.s)
        case None => Err(MalformedRecord)
        case Some(d) =>
          var title := if d == today then TodayTitle else if d == today + 1 then TomorrowTitle else DateTitle(d);
          Ok(Heading(title, Some(d)))
  }

  // ----- the observation form: looking up a date -----

  /** The table the form works on: a copy of history with a "note" column
      of empty strings added when it has none. */
  function WithNote(t: Table): (n: Table)
    requires WellFormed(t)
    ensures WellFormed(n) && "note" in n.columns && |n.rows| == |t.rows|
    ensures "note" in t.columns ==> n == t
    ensures "note" !in t.columns ==>
      (n.columns == t.columns + ["note"] && forall r :: 0 <= r < |t.rows| ==> n.rows[r] == t.rows[r]["note" := Text("")])
  {
    if "note" in t.columns then t
    else
      var n := Table(t.columns + ["note"], seq(|t.rows|, r requires 0 <= r < |t.rows| => t.rows[r]["note" := Text("")]));
      assert forall r :: 0 <= r < |n.rows| ==> n.rows[r].Keys == t.rows[r].Keys + {"note"};
      n
  }

  /** The row's date is the day (a pandas Timestamp equal to the selected date). */
  predicate OnDay(row: Row, day: int) {
    "date" in row && row["date"] == Day(day)
  }

  /** The first row of the day, `existing_row.iloc[0]`. */
  function FirstOnDay(rows: seq<Row>, day: int): (r: Option<nat>)
    ensures r.None? <==> forall i :: 0 <= i < |rows| ==> !OnDay(rows[i], day)
    ensures r.Some? ==> r.value < |rows| && OnDay(rows[r.value], day)
    ensures r.Some? ==> forall i :: 0 <= i < r.value ==> !OnDay(rows[i], day)
  {
    if rows == [] then None
    else if OnDay(rows[0], day) then Some(0)
    else
      match FirstOnDay(rows[1..], day)
      case None =>
        assert forall i :: 1 <= i < |rows| ==> rows[i] == rows[1..][i - 1];
        None
      case Some(k) =>
        assert forall i :: 1 <= i < k + 1 ==> rows[i] == rows[1..][i - 1];
        Some(k + 1)
  }

  /** Two row lists with the same date cells, row for row. */
  predicate SameDates(rows: seq<Row>, other: seq<Row>) {
    && |rows| == |other|
    && forall i :: 0 <= i < |rows| ==>
         ("date" in rows[i] <==> "date" in other[i]) && ("date" in rows[i] ==> rows[i]["date"] == other[i]["date"])
  }

  /** The first row of a day depends on the date cells only. */
  lemma {:induction false} FirstOnDaySameDates(rows: seq<Row>, other: seq<Row>, day: int)
    requires SameDates(rows, other)
    ensures FirstOnDay(rows, day) == FirstOnDay(other, day)
  {
    if rows != [] {
      assert OnDay(rows[0], day) == OnDay(other[0], day);
      assert SameDates(rows[1..], other[1..]) by {
        forall i | 0 <= i < |rows| - 1 ensures rows[1..][i] == rows[i + 1] && other[1..][i] == other[i + 1] {
        }
      }
      FirstOnDaySameDates(rows[1..], other[1..], day);
    }
  }

  /** A row appended after rows without the day is the day's first row. */
  lemma {:induction false} FirstOnDayAppended(rows: seq<Row>, last: Row, day: int)
    requires FirstOnDay(rows, day).None? && OnDay(last, day)
    ensures FirstOnDay(rows + [last], day) == Some(|rows|)
  {
    if rows != [] {
      assert (rows + [last])[1..] == rows[1..] + [last];
      assert rows[1..] == rows[1..];
      assert FirstOnDay(rows[1..], day).None? by {
        forall i | 0 <= i < |rows| - 1 ensures !OnDay(rows[1..][i], day) {
          assert rows[1..][i] == rows[i + 1];
        }
      }
      FirstOnDayAppended(rows[1..], last, day);
    }
  }

  /** What the form shows: the two check boxes and the note. */
  datatype FormValues = FormValues(fog: bool, castle: bool, note: Cell)

  const BlankForm := FormValues(false, false, Text(""))

  /** Python's bool(cell): zero and the empty string are false, and NaN
      (a missing observation) is true. */
  function TruthAsWritten(c: Cell): (b: bool)
    ensures c.Blank? ==> b
    ensures c.Num? ==> (b <==> c.x != 0.0)
  {
    match c
    case Blank => true
    case Num(x) => x != 0.0
    case Text(s) => s != ""
    case Day(_) => true
  }

  /** The intended reading of an observation cell: a missing one is
      unchecked. */
  function Observed(c: Cell): (b: bool)
    ensures c.Blank? ==> !b
    ensures !c.Blank? ==> b == TruthAsWritten(c)
  {
    !c.Blank? && TruthAsWritten(c)
  }

  /** `row.get("note", "")`, with NaN shown as "". */
  function NoteValue(c: Cell): (n: Cell)
    ensures c.Blank? ==> n == Text("")
    ensures !c.Blank? ==> n == c
  {
    if c.Blank? then Text("") else c
  }

  /** The row the form reads for a day, on the table with its note column:
      none for an empty table or a day without a row; KeyError when a
      non-empty table has no "date" column or lacks an observation column. */
  function FormRow(t: Table, day: int): (r: Result<Option<nat>>)
    requires "note" in t.columns
    ensures |t.rows| == 0 ==> r == Ok(None)
    ensures |t.rows| > 0 && "date" !in t.columns ==> r == Err(MissingColumns)
    ensures |t.rows| > 0 && "date" in t.columns && FirstOnDay(t.rows, day).None? ==> r == Ok(None)
    ensures |t.rows| > 0 && "date" in t.columns && FirstOnDay(t.rows, day).Some? ==>
      r == (if "fog_observed" in t.columns && "castle_visible" in t.columns then Ok(FirstOnDay(t.rows, day))
            else Err(MissingColumns))
  {
    if IsEmpty(t) then Ok(None)
    else if "date" !in t.columns then Err(MissingColumns)
    else
      match FirstOnDay(t.rows, day)
      case None => Ok(None)
      case Some(i) =>
        if "fog_observed" in t.columns && "castle_visible" in t.columns then Ok(Some(i))
        else Err(MissingColumns)
  }

  /** The form values for a selected date, as written: `bool(...)` of the
      stored flags, so a missing observation ticks its box. */
  function FormLookupAsWritten(t: Table, day: int): (r: Result<FormValues>)
    requires WellFormed(t)
    ensures var n := WithNote(t);
      && (FormRow(n, day) == Ok(None) ==> r == Ok(BlankForm))
      && (FormRow(n, day).Err? ==> r == Err(FormRow(n, day).error))
      && (FormRow(n, day).Ok? && FormRow(n, day).value.Some? ==>
            var row := n.rows[FormRow(n, day).value.value];
            r == Ok(FormValues(TruthAsWritten(row["fog_observed"]), TruthAsWritten(row["castle_visible"]), NoteValue(row["note"]))))
  {
    var n := WithNote(t);
    match FormRow(n, day)
    case Err(e) => Err(e)
    case Ok(None) => Ok(BlankForm)
    case Ok(Some(i)) =>
      var row := n.rows[i];
      assert "fog_observed" in row && "castle_visible" in row && "note" in row;
      Ok(FormValues(TruthAsWritten(row["fog_observed"]), TruthAsWritten(row["castle_visible"]), NoteValue(row["note"])))
  }


  /** The form values for a selected date, with a missing observation read
      as unchecked. */
  function FormLookup(t: Table, day: int): (r: Result<FormValues>)
    requires WellFormed(t)
    ensures var n := WithNote(t);
      && (FormRow(n, day) == Ok(None) ==> r == Ok(BlankForm))
      && (FormRow(n, day).Err? ==> r == Err(FormRow(n, day).error))
      && (FormRow(n, day).Ok? && FormRow(n, day).value.Some? ==>
            var row := n.rows[FormRow(n, day).value.value];
            r == Ok(FormValues(Observed(row["fog_observed"]), Observed(row["castle_visible"]), NoteValue(row["note"]))))
  {
    var n := WithNote(t);
    match FormRow(n, day)
    case Err(e) => Err(e)
    case Ok(None) => Ok(BlankForm)
    case Ok(Some(i)) =>
      var row := n.rows[i];
      assert "fog_observed" in row && "castle_visible" in row && "note" in row;
      Ok(FormValues(Observed(row["fog_observed"]), Observed(row["castle_visible"]), NoteValue(row["note"])))
  }


  /** A history row for day 0 whose observation cells were never filled
      in (as main.py's column normalisation leaves older rows). */
  function UnobservedDay(): (t: Table)
    ensures WellFormed(t)
  {
    var cols := ["date", "fog_observed", "castle_visible", "note"];
    var row := map["date" := Day(0), "fog_observed" := Blank, "castle_visible" := Blank, "note" := Blank];
    assert row.Keys == set c | c in cols;
    Table(cols, [row])
  }

  /** As written, selecting that day ticks both boxes; read as intended,
      both stay unchecked. */
  lemma UnobservedDayTicksBoxesAsWritten()
    ensures FormLookupAsWritten(UnobservedDay(), 0) == Ok(FormValues(true, true, Text("")))
    ensures FormLookup(UnobservedDay(), 0) == Ok(BlankForm)
  {
    var t := UnobservedDay();
    assert OnDay(t.rows[0], 0);
    assert FirstOnDay(t.rows, 0) == Some(0);
  }

  /** The session state behind the observation form. */
  class ObservationForm {
    var selected: Option<int>
    var fog: bool
    var castle: bool
    var note: Cell

    function Values(): FormValues
      reads this
    {
      FormValues(fog, castle, note)
    }

    /** The state before any date is chosen (the `setdefault` values). */
    constructor ()
      ensures selected.None? && Values() == BlankForm
    {
      selected := None;
      fog, castle, note := false, false, Text("");
    }

    /** Choosing a date (the `date_changed` branch): the selection is
        recorded first; a new date loads that date's values, an unchanged
        one keeps what the form holds; a failed lookup changes nothing
        else. */
    method SelectDate(t: Table, day: int) returns (r: Result<FormValues>)
      requires WellFormed(t)
      modifies this
      ensures selected == Some(day)
      ensures old(selected) == Some(day) ==> r == Ok(old(Values())) && Values() == old(Values())
      ensures old(selected) != Some(day) ==> r == FormLookup(t, day)
      ensures old(selected) != Some(day) && r.Ok? ==> Values() == r.value
      ensures r.Err? ==> Values() == old(Values())
    {
      var changed := selected != Some(day);
      selected := Some(day);
      if !changed {
        return Ok(Values());
      }
      r := FormLookup(t, day);
      if r.Ok? {
        fog, castle, note := r.value.fog, r.value.castle, r.value.note;
      }
    }
  }

  // ----- the observation form: saving -----

  const ObservationColumns: seq<string> := ["fog_observed", "castle_visible", "note"]

  /** The keys of the appended row, in the order pd.concat adds columns. */
  const NewRowColumns: seq<string> :=
    ["date", "temp", "humidity", "wind", "cloud", "rain", "fog_observed", "castle_visible", "note"]

  /** `int(flag)` as a cell. */
  function FlagCell(b: bool): (c: Cell)
    ensures Observed(c) == b && TruthAsWritten(c) == b
  {
    Num(if b then 1.0 else 0.0)
  }

  /** The three cells the save writes. */
  function ObservationCells(fog: bool, castle: bool, note: string): (m: map<string, Cell>)
    ensures forall c :: c in m <==> c in ObservationColumns
  {
    map["fog_observed" := FlagCell(fog), "castle_visible" := FlagCell(castle), "note" := Text(note)]
  }

  /** `(history_df["date"] == date).any()`. */
  predicate HasDay(rows: seq<Row>, day: int) {
    exists i :: 0 <= i < |rows| && OnDay(rows[i], day)
  }

  /** `.loc[mask, [...]] = [...]`: every row of the day gets the cells. */
  function MarkedRows(rows: seq<Row>, day: int, cells: map<string, Cell>): (out: seq<Row>)
    ensures |out| == |rows|
    ensures forall i :: 0 <= i < |rows| ==> out[i] == (if OnDay(rows[i], day) then rows[i] + cells else rows[i])
  {
    seq(|rows|, i requires 0 <= i < |rows| => if OnDay(rows[i], day) then rows[i] + cells else rows[i])
  }

  /** The positions of a column's numbers, top to bottom. */
  function NumberIndices(cs: seq<Cell>): (ix: seq<nat>)
    ensures forall k :: 0 <= k < |ix| ==> ix[k] < |cs| && cs[ix[k]].Num?
    ensures forall i :: 0 <= i < |cs| && cs[i].Num? ==> i in ix
    ensures forall a, b :: 0 <= a < b < |ix| ==> ix[a] < ix[b]
  {
    if cs == [] then []
    else
      var n := |cs| - 1;
      var init := NumberIndices(cs[..n]);
      assert forall i :: 0 <= i < n ==> cs[..n][i] == cs[i];
      if cs[n].Num? then init + [n] else init
  }

  /** The numbers of a column, top to bottom, each once per cell holding it
      (missing values skipped): the values at NumberIndices. */
  function Numbers(cs: seq<Cell>): (xs: seq<real>)
    ensures |xs| == |NumberIndices(cs)| <= |cs|
    ensures forall k :: 0 <= k < |xs| ==> cs[NumberIndices(cs)[k]] == Num(xs[k])
    ensures forall x :: x in xs <==> Num(x) in cs
  {
    if cs == [] then []
    else
      var n := |cs| - 1;
      var init := Numbers(cs[..n]);
      assert forall i :: 0 <= i < n ==> cs[..n][i] == cs[i];
      assert forall c :: c in cs <==> c in cs[..n] || c == cs[n];
      if cs[n].Num? then init + [cs[n].x] else init
  }

  /** `series.mean()`: the mean of the numbers, NaN when there are none,
      and a TypeError for a column holding text or dates. */
  function ColumnMean(cs: seq<Cell>): (r: Result<Cell>)
    ensures r.Err? <==> exists i :: 0 <= i < |cs| && (cs[i].Text? || cs[i].Day?)
    ensures r.Err? ==> r.error == MalformedRecord
    ensures r.Ok? ==> (r.value.Blank? <==> Numbers(cs) == [])
    ensures r.Ok? && r.value.Blank? ==> forall i :: 0 <= i < |cs| ==> cs[i].Blank?
    ensures r.Ok? && !r.value.Blank? ==> |Numbers(cs)| > 0 && r.value == Num(Mean(Numbers(cs)))
    ensures r.Ok? && !r.value.Blank? ==>
      && r.value.Num?
      && (exists i :: 0 <= i < |cs| && cs[i].Num? && cs[i].x <= r.value.x)
      && (exists i :: 0 <= i < |cs| && cs[i].Num? && r.value.x <= cs[i].x)
  {
    if exists i :: 0 <= i < |cs| && (cs[i].Text? || cs[i].Day?) then Err(MalformedRecord)
    else
      var xs := Numbers(cs);
      assert forall i :: 0 <= i < |cs| && cs[i].Num? ==> cs[i].x in xs by {
        forall i | 0 <= i < |cs| && cs[i].Num? ensures cs[i].x in xs {
          assert Num(cs[i].x) == cs[i];
        }
      }
      if xs == [] then Ok(Blank)
      else
        var m := Mean(xs);
        var lo :| 0 <= lo < |xs| && xs[lo] <= m;
        var hi :| 0 <= hi < |xs| && m <= xs[hi];
        assert Num(xs[lo]) in cs && Num(xs[hi]) in cs;
        Ok(Num(m))
  }

  /** A weather cell of the appended row: the column's mean, or 0 when the
      table is empty or has no such column. */
  function FeatureValue(t: Table, col: string): (r: Result<Cell>)
    requires WellFormed(t)
    ensures col !in t.columns || |t.rows| == 0 ==> r == Ok(Num(0.0))
    ensures col in t.columns && |t.rows| > 0 ==> r == ColumnMean(Column(t, col))
  {
    if col !in t.columns || |t.rows| == 0 then Ok(Num(0.0)) else ColumnMean(Column(t, col))
  }

  /** Every weather column's `mean()` succeeds. */
  predicate MeansDefined(t: Table)
    requires WellFormed(t)
  {
    forall c :: c in FeatureColumns ==> FeatureValue(t, c).Ok?
  }

  /** The five weather cells of the new row. */
  function FeatureMeans(t: Table): (m: map<string, Cell>)
    requires WellFormed(t) && MeansDefined(t)
    ensures forall c :: c in m <==> c in FeatureColumns
    ensures forall c :: c in FeatureColumns ==> m[c] == FeatureValue(t, c).value
  {
    map c | c in FeatureColumns :: FeatureValue(t, c).value
  }

  /** The new row of the day: the date, the five weather values and the
      observation cells; a failing mean aborts. */
  function NewRow(t: Table, day: int, fog: bool, castle: bool, note: string): (r: Result<Row>)
    requires WellFormed(t)
    ensures r.Ok? <==> MeansDefined(t)
    ensures r.Err? ==> r.error == MalformedRecord
    ensures r.Ok? ==> forall c :: c in r.value <==> c in NewRowColumns
  {
    if !MeansDefined(t) then Err(MalformedRecord)
    else Ok((FeatureMeans(t) + ObservationCells(fog, castle, note))["date" := Day(day)])
  }

  /** After AddColumns every required column is a column. */
  lemma ColumnsAdded(t: Table, req: seq<string>)
    requires WellFormed(t) && Distinct(req)
    ensures forall c :: c in req ==> c in MainPipeline.AddColumns(t, req).columns
  {
  }

  /** A row that holds every key of `cells` keeps its keys when they are written. */
  lemma WriteKeepsKeys(row: Row, cells: map<string, Cell>)
    requires forall c :: c in cells ==> c in row
    ensures (row + cells).Keys == row.Keys
  {
  }

  /** The update branch: the observation columns added where missing, then
      every row of the day marked. */
  function UpdateDay(t: Table, day: int, cells: map<string, Cell>): (u: Table)
    requires WellFormed(t) && forall c :: c in cells <==> c in ObservationColumns
    ensures WellFormed(u)
  {
    var a := MainPipeline.AddColumns(t, ObservationColumns);
    ColumnsAdded(t, ObservationColumns);
    var out := MarkedRows(a.rows, day, cells);
    forall i | 0 <= i < |out| ensures out[i].Keys == a.rows[i].Keys {
      WriteKeepsKeys(a.rows[i], cells);
    }
    Table(a.columns, out)
  }

  /** The append branch: the new row's columns added where missing, then
      the row appended with every other column missing. */
  function AppendDay(t: Table, row: Row): (u: Table)
    requires WellFormed(t) && forall c :: c in row <==> c in NewRowColumns
    ensures WellFormed(u)
  {
    var a := MainPipeline.AddColumns(t, NewRowColumns);
    ColumnsAdded(t, NewRowColumns);
    var blank := BlankRow(a.columns);
    WriteKeepsKeys(blank, row);
    Table(a.columns, a.rows + [blank + row])
  }

  /** The save branch on the form's table: a day already present has the
      observation cells written on every one of its rows; a new day is
      appended. KeyError without a "date" column. */
  function Observe(t: Table, day: int, fog: bool, castle: bool, note: string): (r: Result<Table>)
    requires WellFormed(t)
    ensures r.Ok? ==> WellFormed(r.value)
  {
    if "date" !in t.columns then Err(MissingColumns)
    else if HasDay(t.rows, day) then Ok(UpdateDay(t, day, ObservationCells(fog, castle, note)))
    else
      match NewRow(t, day, fog, castle, note)
      case Err(e) => Err(e)
      case Ok(row) => Ok(AppendDay(t, row))
  }

  /** save_history's `strftime`: dates go back to strings, NaT stays missing. */
  function StoredRow(row: Row, formatDate: int -> string): (s: Row)
    requires "date" in row
    ensures s.Keys == row.Keys
    ensures forall c :: c in row && c != "date" ==> s[c] == row[c]
    ensures row["date"].Day? ==> s["date"] == Text(formatDate(row["date"].d))
    ensures !row["date"].Day? ==> s["date"] == row["date"]
  {
    match row["date"]
    case Day(d) => row["date" := Text(formatDate(d))]
    case _ => row
  }

  function Stored(t: Table, formatDate: int -> string): (s: Table)
    requires WellFormed(t) && "date" in t.columns
    ensures WellFormed(s) && s.columns == t.columns && |s.rows| == |t.rows|
    ensures forall i :: 0 <= i < |t.rows| ==> s.rows[i] == StoredRow(t.rows[i], formatDate)
  {
    Table(t.columns, seq(|t.rows|, i requires 0 <= i < |t.rows| => StoredRow(t.rows[i], formatDate)))
  }

  /** The file a save leaves: load, add the note column, observe, store. */
  function SavedFile(file: Option<Table>, day: int, fog: bool, castle: bool, note: string,
                     parseDate: DateParser, formatDate: int -> string): (r: Result<Table>)
    requires file.Some? ==> WellFormed(file.value)
  {
    match LoadHistory(file, parseDate)
    case Err(e) => Err(e)
    case Ok(t) =>
      match Observe(WithNote(t), day, fog, castle, note)
      case Err(e) => Err(e)
      case Ok(u) => assert "date" in u.columns by { ObserveKeepsColumns(WithNote(t), day, fog, castle, note); } Ok(Stored(u, formatDate))
  }

  /** Observe keeps every column and adds the ones it writes. */
  lemma ObserveKeepsColumns(t: Table, day: int, fog: bool, castle: bool, note: string)
    requires WellFormed(t)
    ensures var r := Observe(t, day, fog, castle, note);
      r.Ok? ==>
        ("date" in t.columns && r.value.columns[..|t.columns|] == t.columns &&
         forall c :: c in ObservationColumns ==> c in r.value.columns)
  {
  }

  /** `.loc[mask, cols] = ...` as a loop over the rows. */
  method MarkDay(rows: seq<Row>, day: int, cells: map<string, Cell>) returns (out: seq<Row>)
    ensures out == MarkedRows(rows, day, cells)
  {
    out := rows;
    var i := 0;
    while i < |rows|
      invariant 0 <= i <= |rows| && |out| == |rows|
      invariant forall k :: 0 <= k < |rows| ==> out[k] == (if k < i && OnDay(rows[k], day) then rows[k] + cells else rows[k])
    {
      if OnDay(out[i], day) {
        out := out[i := out[i] + cells];
      }
      i := i + 1;
    }
  }

  datatype Saved = UpdatedDay | AppendedDay

  /** The save branch as the dashboard runs it, with the `.loc` update as a loop. */
  method ObserveTable(t: Table, day: int, fog: bool, castle: bool, note: string) returns (r: Result<Table>)
    requires WellFormed(t)
    ensures r == Observe(t, day, fog, castle, note)
  {
    if "date" !in t.columns {
      return Err(MissingColumns);
    }
    if HasDay(t.rows, day) {
      var cells := ObservationCells(fog, castle, note);
      var a := MainPipeline.AddColumns(t, ObservationColumns);
      var rows := MarkDay(a.rows, day, cells);
      r := Ok(Table(a.columns, rows));
    } else {
      var row := NewRow(t, day, fog, castle, note);
      if row.Err? {
        return Err(row.error);
      }
      r := Ok(AppendDay(t, row.value));
    }
  }

  /** The save button: the loaded history with the form's note column,
      the day's rows updated or a row appended, written back to
      history.csv. On an error the file is left as it was. */
  method SaveObservation(h: HistoryFile, day: int, fog: bool, castle: bool, note: string,
                         parseDate: DateParser, formatDate: int -> string) returns (r: Result<Saved>)
    requires h.Valid()
    modifies h
    ensures h.Valid()
    ensures var s := SavedFile(old(h.Snapshot()), day, fog, castle, note, parseDate, formatDate);
      && (r.Err? <==> s.Err?)
      && (r.Err? ==> r.error == s.error && h.Snapshot() == old(h.Snapshot()))
      && (r.Ok? ==> h.Snapshot() == Some(s.value))
  {
    var loaded := LoadHistory(h.Snapshot(), parseDate);
    if loaded.Err? {
      return Err(loaded.error);
    }
    var t := WithNote(loaded.value);
    var observed := ObserveTable(t, day, fog, castle, note);
    if observed.Err? {
      return Err(observed.error);
    }
    ObserveKeepsColumns(t, day, fog, castle, note);
    var stored := Stored(observed.value, formatDate);
    h.present, h.columns, h.rows := true, stored.columns, stored.rows;
    r := Ok(if HasDay(t.rows, day) then UpdatedDay else AppendedDay);
  }

  // ----- properties of the save -----

  /** `updated` is `row` after the update branch: the date is kept, each
      written key holds its new cell on a row of the day (and its old cell,
      or a missing one, elsewhere), and every other cell is kept. */
  predicate RowUpdated(row: Row, updated: Row, day: int, cells: map<string, Cell>) {
    && "date" in row && "date" in updated && updated["date"] == row["date"]
    && (forall c :: c in cells ==>
          (c in updated && updated[c] == (if OnDay(row, day) then cells[c] else if c in row then row[c] else Blank)))
    && (forall c :: c in row && c !in cells ==> c in updated && updated[c] == row[c])
  }

  lemma RowAfterUpdate(row: Row, blank: Row, day: int, cells: map<string, Cell>)
    requires "date" in row && "date" !in blank && "date" !in cells
    requires forall c :: c in blank ==> c !in row && blank[c] == Blank
    requires forall c :: c in cells ==> c in row || c in blank
    ensures var a := row + blank;
      RowUpdated(row, if OnDay(a, day) then a + cells else a, day, cells)
  {
    assert (row + blank)["date"] == row["date"];
  }

  /** The update branch row by row. */
  lemma UpdateDayRows(t: Table, day: int, cells: map<string, Cell>)
    requires WellFormed(t) && "date" in t.columns && forall c :: c in cells <==> c in ObservationColumns
    ensures var u := UpdateDay(t, day, cells);
      && u.columns == t.columns + MainPipeline.Missing(t.columns, ObservationColumns)
      && |u.rows| == |t.rows|
      && SameDates(t.rows, u.rows)
      && forall i :: 0 <= i < |t.rows| ==> RowUpdated(t.rows[i], u.rows[i], day, cells)
  {
    var miss := MainPipeline.Missing(t.columns, ObservationColumns);
    var a := MainPipeline.AddColumns(t, ObservationColumns);
    var u := UpdateDay(t, day, cells);
    forall i | 0 <= i < |t.rows| ensures RowUpdated(t.rows[i], u.rows[i], day, cells) {
      assert a.rows[i] == t.rows[i] + BlankRow(miss);
      assert forall c :: c in cells ==> c in t.rows[i] || c in BlankRow(miss);
      RowAfterUpdate(t.rows[i], BlankRow(miss), day, cells);
    }
  }

  /** Saving for a day already present writes the flags and the note on
      every row of that day; every other cell of every row is kept, and
      rows of other days only gain missing cells for added columns. */
  lemma ObserveExistingDay(t: Table, day: int, fog: bool, castle: bool, note: string)
    requires WellFormed(t) && "date" in t.columns && HasDay(t.rows, day)
    ensures var r := Observe(t, day, fog, castle, note);
      && r.Ok? && |r.value.rows| == |t.rows|
      && r.value.columns == t.columns + MainPipeline.Missing(t.columns, ObservationColumns)
      && forall i :: 0 <= i < |t.rows| ==>
           RowUpdated(t.rows[i], r.value.rows[i], day, ObservationCells(fog, castle, note))
  {
    UpdateDayRows(t, day, ObservationCells(fog, castle, note));
  }

  /** The observation cells are the flags as 0 / 1 and the note. */
  lemma ObservationCellValues(fog: bool, castle: bool, note: string)
    ensures var m := ObservationCells(fog, castle, note);
      m["fog_observed"] == FlagCell(fog) && m["castle_visible"] == FlagCell(castle) && m["note"] == Text(note)
  {
  }

  /** The append branch: the old rows keep their cells, the last row has
      the new row's cells and is missing elsewhere. */
  lemma AppendDayRows(t: Table, row: Row)
    requires WellFormed(t) && forall c :: c in row <==> c in NewRowColumns
    ensures var u := AppendDay(t, row);
      && u.columns == t.columns + MainPipeline.Missing(t.columns, NewRowColumns)
      && |u.rows| == |t.rows| + 1
      && (forall i, c :: 0 <= i < |t.rows| && c in t.rows[i] ==> c in u.rows[i] && u.rows[i][c] == t.rows[i][c])
      && (forall c :: c in row ==> c in u.rows[|t.rows|] && u.rows[|t.rows|][c] == row[c])
      && (forall c :: c in u.columns && c !in row ==> c in u.rows[|t.rows|] && u.rows[|t.rows|][c] == Blank)
  {
    var miss := MainPipeline.Missing(t.columns, NewRowColumns);
    var a := MainPipeline.AddColumns(t, NewRowColumns);
    var u := AppendDay(t, row);
    forall i | 0 <= i < |t.rows| ensures forall c :: c in t.rows[i] ==> c in u.rows[i] && u.rows[i][c] == t.rows[i][c] {
      assert u.rows[i] == a.rows[i] == t.rows[i] + BlankRow(miss);
    }
  }

  /** The cells of the new row: the day, the flags and the note. */
  lemma NewRowCells(t: Table, day: int, fog: bool, castle: bool, note: string)
    requires WellFormed(t) && MeansDefined(t)
    ensures var row := NewRow(t, day, fog, castle, note).value;
      && row["date"] == Day(day)
      && row["fog_observed"] == FlagCell(fog) && row["castle_visible"] == FlagCell(castle) && row["note"] == Text(note)
  {
    var m := ObservationCells(fog, castle, note);
    assert "fog_observed" in m && "castle_visible" in m && "note" in m;
    assert "fog_observed" != "date" && "castle_visible" != "date" && "note" != "date";
  }

  /** The weather cells of the new row: each column's value. */
  lemma NewRowFeatures(t: Table, day: int, fog: bool, castle: bool, note: string)
    requires WellFormed(t) && MeansDefined(t)
    ensures var row := NewRow(t, day, fog, castle, note).value;
      forall c :: c in FeatureColumns ==> c in row && row[c] == FeatureValue(t, c).value
  {
    var m := ObservationCells(fog, castle, note);
    forall c | c in FeatureColumns ensures c != "date" && c !in m {
    }
  }

  /** The three branches of the save once the table has a "date" column. */
  lemma ObserveBranches(t: Table, day: int, fog: bool, castle: bool, note: string)
    requires WellFormed(t) && "date" in t.columns
    ensures HasDay(t.rows, day) ==>
      Observe(t, day, fog, castle, note) == Ok(UpdateDay(t, day, ObservationCells(fog, castle, note)))
    ensures !HasDay(t.rows, day) && MeansDefined(t) ==>
      Observe(t, day, fog, castle, note) == Ok(AppendDay(t, NewRow(t, day, fog, castle, note).value))
    ensures !HasDay(t.rows, day) && !MeansDefined(t) ==>
      Observe(t, day, fog, castle, note) == Err(MalformedRecord)
  {
  }

  /** Saving for a new day keeps every existing row (missing cells for any
      added column) and appends one row; a column mean that fails aborts. */
  lemma ObserveNewDay(t: Table, day: int, fog: bool, castle: bool, note: string)
    requires WellFormed(t) && "date" in t.columns && !HasDay(t.rows, day)
    ensures var r := Observe(t, day, fog, castle, note);
      && (r.Ok? <==> MeansDefined(t))
      && (r.Ok? ==>
            && |r.value.rows| == |t.rows| + 1
            && r.value.columns == t.columns + MainPipeline.Missing(t.columns, NewRowColumns)
            && (forall i, c :: 0 <= i < |t.rows| && c in t.rows[i] ==> c in r.value.rows[i] && r.value.rows[i][c] == t.rows[i][c]))
  {
    ObserveBranches(t, day, fog, castle, note);
    if MeansDefined(t) {
      AppendDayRows(t, NewRow(t, day, fog, castle, note).value);
    }
  }

  /** The row appended for a new day: the day, the form's flags and note,
      and for each weather column its mean, or 0 when the table is empty or
      lacks the column. */
  lemma ObserveNewDayRow(t: Table, day: int, fog: bool, castle: bool, note: string)
    requires WellFormed(t) && "date" in t.columns && !HasDay(t.rows, day) && MeansDefined(t)
    ensures var r := Observe(t, day, fog, castle, note);
      r.Ok? && |r.value.rows| == |t.rows| + 1 && NewDayRow(t, r.value.rows[|t.rows|], day, fog, castle, note)
  {
    ObserveBranches(t, day, fog, castle, note);
    var row := NewRow(t, day, fog, castle, note).value;
    var u := AppendDay(t, row);
    AppendDayLast(t, row);
    NewRowIsNewDayRow(t, day, fog, castle, note);
    NewDayRowKept(t, row, u.rows[|t.rows|], day, fog, castle, note);
  }

  /** The appended row holds the new row's cells. */
  lemma AppendDayLast(t: Table, row: Row)
    requires WellFormed(t) && forall c :: c in row <==> c in NewRowColumns
    ensures var u := AppendDay(t, row);
      |u.rows| == |t.rows| + 1 && forall c :: c in row ==> c in u.rows[|t.rows|] && u.rows[|t.rows|][c] == row[c]
  {
  }

  /** The appended row of a new day. */
  predicate NewDayRow(t: Table, last: Row, day: int, fog: bool, castle: bool, note: string)
    requires WellFormed(t)
  {
    && "date" in last && last["date"] == Day(day)
    && "fog_observed" in last && last["fog_observed"] == FlagCell(fog)
    && "castle_visible" in last && last["castle_visible"] == FlagCell(castle)
    && "note" in last && last["note"] == Text(note)
    && forall c :: c in FeatureColumns ==>
         (c in last && FeatureValue(t, c).Ok? && last[c] == FeatureValue(t, c).value)
  }

  /** The new row itself is the appended row of the day. */
  lemma NewRowIsNewDayRow(t: Table, day: int, fog: bool, castle: bool, note: string)
    requires WellFormed(t) && MeansDefined(t)
    ensures NewDayRow(t, NewRow(t, day, fog, castle, note).value, day, fog, castle, note)
  {
    NewRowCells(t, day, fog, castle, note);
    NewRowFeatures(t, day, fog, castle, note);
  }

  /** A row holding another's cells is the appended row when that one is. */
  lemma NewDayRowKept(t: Table, row: Row, last: Row, day: int, fog: bool, castle: bool, note: string)
    requires WellFormed(t) && NewDayRow(t, row, day, fog, castle, note)
    requires forall c :: c in row ==> c in last && last[c] == row[c]
    ensures NewDayRow(t, last, day, fog, castle, note)
  {
  }

  /** The form shows the first row of the day, with its saved values. */
  lemma LookupSavedRow(u: Table, day: int, i: nat, fog: bool, castle: bool, note: string)
    requires WellFormed(u) && "date" in u.columns && "note" in u.columns
    requires "fog_observed" in u.columns && "castle_visible" in u.columns
    requires FirstOnDay(u.rows, day) == Some(i)
    requires u.rows[i]["fog_observed"] == FlagCell(fog) && u.rows[i]["castle_visible"] == FlagCell(castle)
    requires u.rows[i]["note"] == Text(note)
    ensures FormLookup(u, day) == Ok(FormValues(fog, castle, Text(note)))
    ensures FormLookupAsWritten(u, day) == Ok(FormValues(fog, castle, Text(note)))
  {
    assert WithNote(u) == u;
  }

  /** After the update branch the day's first row is where it was, with
      the saved cells. */
  lemma FirstAfterUpdate(t: Table, day: int, cells: map<string, Cell>)
    requires WellFormed(t) && "date" in t.columns && HasDay(t.rows, day)
    requires forall c :: c in cells <==> c in ObservationColumns
    ensures var u := UpdateDay(t, day, cells);
      var i := FirstOnDay(t.rows, day).value;
      && FirstOnDay(u.rows, day) == Some(i)
      && forall c :: c in cells ==> c in u.rows[i] && u.rows[i][c] == cells[c]
  {
    var u := UpdateDay(t, day, cells);
    UpdateDayRows(t, day, cells);
    FirstOnDaySameDates(t.rows, u.rows, day);
    var i := FirstOnDay(t.rows, day).value;
    assert RowUpdated(t.rows[i], u.rows[i], day, cells);
  }

  /** Adding columns leaves every date cell as it was. */
  lemma AddColumnsSameDates(t: Table, req: seq<string>)
    requires WellFormed(t) && "date" in t.columns && Distinct(req)
    ensures SameDates(t.rows, MainPipeline.AddColumns(t, req).rows)
  {
    var a := MainPipeline.AddColumns(t, req);
    var blank := BlankRow(MainPipeline.Missing(t.columns, req));
    assert "date" !in blank;
    forall i | 0 <= i < |t.rows| ensures "date" in a.rows[i] && a.rows[i]["date"] == t.rows[i]["date"] {
      assert "date" in t.rows[i] && a.rows[i] == t.rows[i] + blank;
    }
  }

  /** After the append branch the day's first row is the new last row. */
  lemma FirstAfterAppend(t: Table, row: Row, day: int)
    requires WellFormed(t) && "date" in t.columns && !HasDay(t.rows, day)
    requires (forall c :: c in row <==> c in NewRowColumns) && OnDay(row, day)
    ensures FirstOnDay(AppendDay(t, row).rows, day) == Some(|t.rows|)
  {
    var u := AppendDay(t, row);
    var a := MainPipeline.AddColumns(t, NewRowColumns);
    var n := |t.rows|;
    assert u.rows == a.rows + [BlankRow(a.columns) + row];
    AddColumnsSameDates(t, NewRowColumns);
    FirstOnDaySameDates(t.rows, a.rows, day);
    FirstOnDayAppended(a.rows, BlankRow(a.columns) + row, day);
  }

  /** What was saved is what the form shows for that day afterwards (read
      as written or as intended: the saved flags are 0 or 1, never missing). */
  lemma LookupAfterSave(t: Table, day: int, fog: bool, castle: bool, note: string)
    requires WellFormed(t) && "date" in t.columns && "note" in t.columns
    requires Observe(t, day, fog, castle, note).Ok?
    ensures var u := Observe(t, day, fog, castle, note).value;
      && FormLookup(u, day) == Ok(FormValues(fog, castle, Text(note)))
      && FormLookupAsWritten(u, day) == Ok(FormValues(fog, castle, Text(note)))
  {
    var u := Observe(t, day, fog, castle, note).value;
    ObserveKeepsColumns(t, day, fog, castle, note);
    ObserveBranches(t, day, fog, castle, note);
    ObservationCellValues(fog, castle, note);
    if HasDay(t.rows, day) {
      var cells := ObservationCells(fog, castle, note);
      FirstAfterUpdate(t, day, cells);
      assert "fog_observed" in cells && "castle_visible" in cells && "note" in cells;
      LookupSavedRow(u, day, FirstOnDay(t.rows, day).value, fog, castle, note);
    } else {
      var row := NewRow(t, day, fog, castle, note).value;
      NewRowCells(t, day, fog, castle, note);
      FirstAfterAppend(t, row, day);
      AppendDayLast(t, row);
      assert "fog_observed" in row && "castle_visible" in row && "note" in row;
      LookupSavedRow(u, day, |t.rows|, fog, castle, note);
    }
  }
}
