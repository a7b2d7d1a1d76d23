/** The fixed tables of the cron parser, the errors it raises and the shapes a
    field token can take. */
module CronConfig {
  import opened Text

  /** The exceptions `parse_cron_command` raises. The first five carry the
      messages the parser writes itself; the last three stand for the errors
      Python raises on its behalf. */
  datatype CronError =
    | InvalidRangeValues                    // an `A-B` token with A > B
    | OutsideAllowedRange(field: string)    // a single number or list element out of bounds
    | StartOutsideAllowedRange(field: string)
    | EndOutsideAllowedRange(field: string)
    | InvalidFormat(field: string)          // a token of no recognised form
    | NotAnInteger(text: string)            // `int(text)` raises `ValueError`
    | TooManyValuesToUnpack                 // `start, end = value.split('-')` with three or more pieces
    | NoSuchPosition(index: nat)            // `CRON_POSITION_CONFIG[index]` raises `KeyError`

  /** The errors whose message names the field the token belongs to. */
  predicate NamesField(e: CronError) {
    e.OutsideAllowedRange? || e.StartOutsideAllowedRange? || e.EndOutsideAllowedRange? || e.InvalidFormat?
  }

  /** The text of the exception, as `str()` of it reads. The three bounds
      messages begin with the name of the field; the format message names it
      after its fixed opening. */
  function Message(e: CronError): (m: string)
    ensures NamesField(e) && !e.InvalidFormat? ==> |m| > |e.field| && m[..|e.field|] == e.field
    ensures e.InvalidFormat? ==> |m| > 19 + |e.field| && m[..19] == "Invalid format for " && m[19..19 + |e.field|] == e.field
  {
    match e
    case InvalidRangeValues => "Invalid range values supplied"
    case OutsideAllowedRange(f) => f + " value is outside allowed range"
    case StartOutsideAllowedRange(f) => f + " start value is outside allowed range"
    case EndOutsideAllowedRange(f) => f + " end value is outside allowed range"
    case InvalidFormat(f) => "Invalid format for " + f + " field"
    case NotAnInteger(t) => "invalid literal for int() with base 10: '" + t + "'"
    case TooManyValuesToUnpack => "too many values to unpack (expected 2)"
    case NoSuchPosition(i) => NatToString(i)
  }

  /** Whether `main` reports the error: it catches `ValueError` only, and the
      `KeyError` of a seventh token escapes it. */
  predicate IsValueError(e: CronError) {
    !e.NoSuchPosition?
  }

  datatype Result<+T> = Ok(value: T) | Err(error: CronError) {
    predicate IsFailure() {
      Err?
    }

    function PropagateFailure<U>(): Result<U>
      requires Err?
    {
      Err(error)
    }

    function Extract(): T
      requires Ok?
    {
      value
    }
  }

  /** `int(text)`, raising on text that is not a number. */
  function IntOf(text: string): (r: Result<nat>)
    ensures r.Ok? <==> IsDigits(text)
    ensures r.Err? ==> r.error == NotAnInteger(text)
  {
    match ParseInt(text)
    case Some(n) => Ok(n)
    case None => Err(NotAnInteger(text))
  }

  /** `MINMAX_VALUE_CONFIG`: the inclusive bounds of the five time fields. */
  const MinMaxValueConfig: seq<(nat, nat)> := [(0, 59), (0, 23), (1, 31), (1, 12), (0, 7)]

  /** `CRON_POSITION_CONFIG`: the name of each token position. */
  const CronPositionConfig: seq<string> :=
    ["minute", "hour", "day of month", "month", "day of week", "command"]

  /** Only the last position, the one after the time fields, is named "command". */
  lemma CommandPosition(i: nat)
    requires i < |CronPositionConfig|
    ensures CronPositionConfig[i] == "command" <==> i == FieldCount
  {
    if i < FieldCount {
      assert CronPositionConfig[i][0] != 'c' || |CronPositionConfig[i]| != 7;
    }
  }

  /** `DEFAULT_HEADER_COL_LENGTH`: the width of the header column. */
  const DefaultHeaderColLength: nat := 14

  /** The number of time fields; the token after them is the command. */
  const FieldCount: nat := 5

  /** A time field: its name and its inclusive bounds. */
  datatype FieldSpec = FieldSpec(name: string, min: nat, max: nat)

  /** The field at token position `idx`, assembled from the two tables. */
  function Field(idx: nat): (f: FieldSpec)
    requires idx < FieldCount
    ensures f.name == CronPositionConfig[idx] && f.name != "command"
    ensures f.min <= f.max
  {
    FieldSpec(CronPositionConfig[idx], MinMaxValueConfig[idx].0, MinMaxValueConfig[idx].1)
  }

  /** The five time fields, in token order, with their bounds. */
  lemma FieldTable()
    ensures Field(0) == FieldSpec("minute", 0, 59)
    ensures Field(1) == FieldSpec("hour", 0, 23)
    ensures Field(2) == FieldSpec("day of month", 1, 31)
    ensures Field(3) == FieldSpec("month", 1, 12)
    ensures Field(4) == FieldSpec("day of week", 0, 7)
  {
  }

  /** One entry of the parser's output dictionary, and one line of the table:
      a field name and its values as text. */
  datatype Row = Row(header: string, values: seq<string>)

  /** The syntactic forms a field token is classified into. */
  datatype Form =
    | Wildcard                              // `*`
    | Single(text: string, n: nat)          // `N`, kept as written
    | Interval(step: nat)                   // `*/N`
    | Range(start: nat, end: nat)           // `A-B`
    | List(items: seq<string>)              // `A,B,C`, kept as written

  /** What the classification guarantees about each form. */
  predicate ValidForm(form: Form) {
    match form
    case Wildcard => true
    case Single(text, n) => ParseInt(text) == Some(n)
    case Interval(step) => step > 0
    case Range(start, end) => start <= end && end > 0
    case List(items) => |items| >= 2
  }
}
