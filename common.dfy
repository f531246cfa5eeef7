/** Values shared by every stage of the fog / castle-in-the-sky pipeline:
    optional values and errors, Python floats with NaN, the cells of the
    history table, JSON values of the feed documents, event labels and
    probabilities. */
module Common {

  datatype Option<+T> = None | Some(value: T)

  /** The exceptions the pipeline raises; each aborts the stage that raised it. */
  datatype Error =
    | FileMissing          // FileNotFoundError: a required file does not exist
    | EmptyTable           // a table without data rows
    | MissingColumns       // a required column (or key) is absent
    | NoUsableRows         // every row was dropped by a missing-value filter
    | DomainError          // humidity outside (0, 100]
    | MalformedRecord      // a value that int()/float()/date parsing rejects
    | NoTargetHours        // no hourly reading in the 05:00-08:00 band
    | NoDays               // nothing left to average or to predict
    | InvalidDays          // --days outside 1..16
    | IndexOutOfRange      // an hourly series shorter than the time axis
    | NullReading          // TypeError: `sum` met a JSON null among the hourly readings
    | SingleLabel          // fewer than two distinct training labels
    | CalibratorFailed     // the calibrator raised where nothing catches it
    | HttpError            // raise_for_status: the final response has a 4xx or 5xx status

  datatype Result<+T> = Ok(value: T) | Err(error: Error)

  /** `datetime.fromisoformat(ts)` of an hourly time stamp, reduced to the
      two things the code reads: its calendar day (as a day number, so that
      the order of ISO date strings is the order of day numbers) and its
      hour. None when fromisoformat raises. */
  datatype Timestamp = Timestamp(day: int, hour: int)
  type TimestampParser = string -> Option<Timestamp>

  /** A Python float: a real number or NaN (infinities are not modelled). */
  datatype Float = Real(v: real) | NaN

  /** `a - b` on Python floats: NaN absorbs. */
  function Sub(a: Float, b: Float): (r: Float)
    ensures r.Real? <==> a.Real? && b.Real?
    ensures r.Real? ==> r.v + b.v == a.v
  {
    if a.Real? && b.Real? then Real(a.v - b.v) else NaN
  }

  /** Python's `f >= t`, which is False whenever f is NaN. */
  predicate AtLeast(f: Float, t: real) {
    f.Real? && f.v >= t
  }

  /** The outcome of Python's float() applied to a string. */
  datatype Parsed = PNum(x: real) | PNaN | PFail

  /** float(s) for strings: the text syntax itself is not modelled. */
  type TextParser = string -> Parsed

  /** A cell of a pandas table read from CSV: a missing value (NaN / NA),
      a number, a string, or a parsed date (a pandas Timestamp at midnight,
      as its day number). */
  datatype Cell = Blank | Num(x: real) | Text(s: string) | Day(d: int)

  /** Python's float(cell): NaN for a missing value, an exception for a
      string float() rejects or for a Timestamp. */
  function FloatOf(c: Cell, parse: TextParser): (r: Option<Float>)
    ensures c.Num? ==> r == Some(Real(c.x))
    ensures c.Blank? ==> r == Some(NaN)
    ensures c.Day? ==> r == None
    ensures c.Text? ==> (r.None? <==> parse(c.s).PFail?)
  {
    match c
    case Blank => Some(NaN)
    case Num(x) => Some(Real(x))
    case Day(_) => None
    case Text(s) =>
      match parse(s)
      case PNum(x) => Some(Real(x))
      case PNaN => Some(NaN)
      case PFail => None
  }

  /** A float as it is stored back into a nullable pandas column:
      NaN becomes a missing value. */
  function CellOf(f: Float): (c: Cell)
    ensures f.Real? ==> c == Num(f.v)
    ensures f.NaN? ==> c == Blank
  {
    match f
    case Real(v) => Num(v)
    case NaN => Blank
  }

  /** JSON values as json.load returns them (objects and arrays aside). */
  datatype JsonValue = JNull | JBool(b: bool) | JNum(x: real) | JStr(s: string)

  /** Python truthiness of a JSON value. */
  predicate Truthy(j: JsonValue) {
    match j
    case JNull => false
    case JBool(b) => b
    case JNum(x) => x != 0.0
    case JStr(s) => s != ""
  }

  /** Python's str() of a JSON value that is not a string (its repr). */
  type Shower = JsonValue -> string

  function JsonStr(j: JsonValue, show: Shower): (s: string)
    ensures j.JStr? ==> s == j.s
  {
    if j.JStr? then j.s else show(j)
  }

  /** float(j): booleans count as 0 / 1, null raises a TypeError, a string
      goes through the float() syntax. */
  function JsonFloat(j: JsonValue, parse: TextParser): (r: Option<Float>)
    ensures j.JNull? ==> r.None?
    ensures j.JNum? ==> r == Some(Real(j.x))
    ensures j.JBool? ==> r == Some(Real(if j.b then 1.0 else 0.0))
    ensures j.JStr? ==> (r.None? <==> parse(j.s).PFail?)
  {
    match j
    case JNull => None
    case JBool(b) => Some(Real(if b then 1.0 else 0.0))
    case JNum(x) => Some(Real(x))
    case JStr(s) =>
      match parse(s)
      case PNum(x) => Some(Real(x))
      case PNaN => Some(NaN)
      case PFail => None
  }

  /** A JSON document such as feed.json: a dictionary of keys to values. */
  type Document = map<string, JsonValue>

  /** The three labels the label policies produce. */
  datatype Label = Castle | FogOnly | NoEvent {
    /** The string stored in feed.json and history.csv. */
    function Name(): (s: string)
      ensures |s| >= 4
    {
      match this
      case Castle => "Castle"
      case FogOnly => "FogOnly"
      case NoEvent => "None"
    }
  }

  lemma LabelNamesDistinct(a: Label, b: Label)
    ensures a.Name() == b.Name() ==> a == b
  {
    if a != b {
      match a
      case Castle => assert a.Name()[0] == 'C' && (b.Name()[0] != 'C' || b == Castle);
      case FogOnly => assert a.Name()[0] == 'F' && (b.Name()[0] != 'F' || b == FogOnly);
      case NoEvent => assert a.Name()[0] == 'N' && (b.Name()[0] != 'N' || b == NoEvent);
    }
  }

  /** A probability, as predict_proba's positive-class column yields. */
  type Prob = p: real | 0.0 <= p <= 1.0

  /** A trained binary classifier: an opaque map from the fixed-order
      feature vector (NaN allowed for missing lags) to a probability. */
  type Classifier = seq<Float> -> Prob

  /** Sum of a sequence of reals. */
  function Sum(xs: seq<real>): real
  {
    if xs == [] then 0.0 else Sum(xs[..|xs| - 1]) + xs[|xs| - 1]
  }

  /** The arithmetic mean `sum(values) / len(values)`: it lies between the
      smallest and the largest value. */
  function Mean(xs: seq<real>): (m: real)
    requires |xs| > 0
    ensures m * (|xs| as real) == Sum(xs)
    ensures exists i :: 0 <= i < |xs| && xs[i] <= m
    ensures exists i :: 0 <= i < |xs| && m <= xs[i]
  {
    MeanBetween(xs);
    Sum(xs) / (|xs| as real)
  }

  lemma MeanBetween(xs: seq<real>)
    requires |xs| > 0
    ensures exists i :: 0 <= i < |xs| && xs[i] <= Sum(xs) / (|xs| as real)
    ensures exists i :: 0 <= i < |xs| && Sum(xs) / (|xs| as real) <= xs[i]
  {
    var m := Sum(xs) / (|xs| as real);
    if forall i :: 0 <= i < |xs| ==> xs[i] > m {
      SumAbove(xs, m);
    }
    if forall i :: 0 <= i < |xs| ==> xs[i] < m {
      SumBelow(xs, m);
    }
  }

  lemma {:induction false} SumAbove(xs: seq<real>, m: real)
    requires |xs| > 0
    requires forall i :: 0 <= i < |xs| ==> xs[i] > m
    ensures Sum(xs) > m * (|xs| as real)
  {
    var init := xs[..|xs| - 1];
    if init != [] {
      assert forall i :: 0 <= i < |init| ==> init[i] == xs[i];
      SumAbove(init, m);
    }
  }

  lemma {:induction false} SumBelow(xs: seq<real>, m: real)
    requires |xs| > 0
    requires forall i :: 0 <= i < |xs| ==> xs[i] < m
    ensures Sum(xs) < m * (|xs| as real)
  {
    var init := xs[..|xs| - 1];
    if init != [] {
      assert forall i :: 0 <= i < |init| ==> init[i] == xs[i];
      SumBelow(init, m);
    }
  }

  /** Python's int(x) for a float: truncation toward zero. */
  function Trunc(x: real): (n: int)
    ensures x >= 0.0 ==> n as real <= x < n as real + 1.0
    ensures x < 0.0 ==> n as real - 1.0 < x <= n as real
  {
    if x >= 0.0 then x.Floor else -((-x).Floor)
  }

  /** The characters Python's str.strip() removes: those str.isspace()
      accepts, the ASCII controls 9 to 13 and 28 to 31, the space, and the
      Unicode separators. */
  predicate IsSpace(c: char) {
    || '\U{0009}' <= c <= '\U{000D}' || '\U{001C}' <= c <= '\U{0020}'
    || c == '\U{0085}' || c == '\U{00A0}' || c == '\U{1680}'
    || '\U{2000}' <= c <= '\U{200A}' || c == '\U{2028}' || c == '\U{2029}'
    || c == '\U{202F}' || c == '\U{205F}' || c == '\U{3000}'
  }

  /** `s.strip()` is non-empty. */
  predicate NonBlank(s: string) {
    exists i :: 0 <= i < |s| && !IsSpace(s[i])
  }
}
