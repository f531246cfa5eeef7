/** The date-keyed history table (history.csv) as pandas holds it: an ordered
    list of column names and rows that map every column to a cell. */
module HistoryTable {
  import opened Common

  type Row = map<string, Cell>

  datatype Table = Table(columns: seq<string>, rows: seq<Row>)

  predicate Distinct(cols: seq<string>) {
    forall i, j :: 0 <= i < j < |cols| ==> cols[i] != cols[j]
  }

  /** Every row holds exactly the table's columns, and no column is repeated. */
  predicate WellFormed(t: Table) {
    && Distinct(t.columns)
    && forall r :: 0 <= r < |t.rows| ==> t.rows[r].Keys == set c | c in t.columns
  }

  /** pandas' DataFrame.empty: no rows, or no columns. */
  predicate IsEmpty(t: Table) {
    |t.rows| == 0 || |t.columns| == 0
  }

  /** The cells of one column, top to bottom. */
  function Column(t: Table, name: string): (cs: seq<Cell>)
    requires WellFormed(t) && name in t.columns
    ensures |cs| == |t.rows|
    ensures forall r :: 0 <= r < |t.rows| ==> cs[r] == t.rows[r][name]
  {
    seq(|t.rows|, r requires 0 <= r < |t.rows| => t.rows[r][name])
  }

  /** A date string as a day number, or None where pandas' to_datetime fails. */
  type DateParser = string -> Option<int>

  /** `pd.to_datetime(cell, errors="coerce")`: NaT (None) for a missing or
      unparsable date. */
  function DateOf(c: Cell, parseDate: DateParser): (d: Option<int>)
    ensures c.Day? ==> d == Some(c.d)
    ensures c.Blank? ==> d.None?
  {
    match c
    case Day(d) => Some(d)
    case Text(s) => parseDate(s)
    case _ => None
  }

  /** The coerced date of every row, as the key the table is sorted by. */
  function DateKeys(t: Table, parseDate: DateParser): (ks: seq<Option<int>>)
    requires WellFormed(t) && "date" in t.columns
    ensures |ks| == |t.rows|
    ensures forall r :: 0 <= r < |t.rows| ==> ks[r] == DateOf(t.rows[r]["date"], parseDate)
  {
    seq(|t.rows|, r requires 0 <= r < |t.rows| => DateOf(t.rows[r]["date"], parseDate))
  }

  /** A row with the given columns, every cell missing. */
  function BlankRow(cols: seq<string>): (r: Row)
    ensures r.Keys == set c | c in cols
    ensures forall c :: c in r ==> r[c] == Blank
  {
    map c | c in cols :: Blank
  }

  /** The contents of history.csv: absent, or a table. The two writers of the
      file (the pipeline's upsert and the operator's observation form) are
      methods that change this object; every reader takes a Snapshot. */
  class HistoryFile {
    var present: bool
    var columns: seq<string>
    var rows: seq<Row>

    ghost predicate Valid()
      reads this
    {
      WellFormed(Table(columns, rows))
    }

    function Snapshot(): (t: Option<Table>)
      reads this
      ensures t.Some? <==> present
      ensures t.Some? ==> t.value == Table(columns, rows)
    {
      if present then Some(Table(columns, rows)) else None
    }

    constructor (t: Option<Table>)
      requires t.Some? ==> WellFormed(t.value)
      ensures Valid()
      ensures Snapshot() == t
    {
      present := t.Some?;
      columns := if t.Some? then t.value.columns else [];
      rows := if t.Some? then t.value.rows else [];
    }
  }
}
