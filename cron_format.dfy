/** The table printer, `format_output_values`: one line per entry of the
    parser's output, the field name padded to a fixed column and then the
    values separated by single spaces. */
module CronFormat {
  import opened Text
  import opened CronConfig

  /** `' ' * n`. */
  function Spaces(n: nat): (s: string)
    ensures |s| == n
    ensures forall i | 0 <= i < n :: s[i] == ' '
  {
    if n == 0 then "" else Spaces(n - 1) + " "
  }

  /** The header column: the name followed by spaces up to the column width; a
      name already that wide or wider is left as it is. */
  function PadHeader(header: string): (h: string)
    ensures |h| == if |header| < DefaultHeaderColLength then DefaultHeaderColLength else |header|
    ensures h[..|header|] == header
    ensures forall i | |header| <= i < |h| :: h[i] == ' '
  {
    if |header| < DefaultHeaderColLength then header + Spaces(DefaultHeaderColLength - |header|)
    else header
  }

  /** A line of the table without its line break. The values are glued with
      `reduce`, which needs at least one of them. */
  function LineBody(row: Row): string
    requires |row.values| >= 1
  {
    PadHeader(row.header) + Join(row.values, ' ')
  }

  /** A line of the table. */
  function FormatLine(row: Row): (line: string)
    requires |row.values| >= 1
    ensures |line| > DefaultHeaderColLength
  {
    LineBody(row) + "\n"
  }

  /** Every entry has a value to print. */
  predicate Printable(table: seq<Row>) {
    forall i | 0 <= i < |table| :: |table[i].values| >= 1
  }

  /** The lines of the table, in the order of its entries. */
  function FormatTable(table: seq<Row>): (s: string)
    requires Printable(table)
    ensures s == "" <==> table == []
    ensures s != "" ==> s[|s| - 1] == '\n'
    ensures |s| >= (DefaultHeaderColLength + 1) * |table|
  {
    if table == [] then "" else FormatLine(table[0]) + FormatTable(table[1..])
  }

  /** One more entry adds its line at the end. */
  lemma {:induction false} FormatTableSnoc(table: seq<Row>, row: Row)
    requires Printable(table) && |row.values| >= 1
    ensures Printable(table + [row])
    ensures FormatTable(table + [row]) == FormatTable(table) + FormatLine(row)
  {
    if table != [] {
      assert (table + [row])[1..] == table[1..] + [row];
      FormatTableSnoc(table[1..], row);
    } else {
      assert [row][1..] == [];
    }
  }

  /** `format_output_values`: appends one line per entry, in order. */
  method FormatOutputValues(outputData: seq<Row>) returns (formattedOutput: string)
    requires Printable(outputData)
    ensures formattedOutput == FormatTable(outputData)
  {
    formattedOutput := "";
    for i := 0 to |outputData|
      invariant formattedOutput == FormatTable(outputData[..i])
    {
      var header, values := outputData[i].header, outputData[i].values;
      var formattedHeader := header;
      var headerLength := |header|;
      if headerLength < DefaultHeaderColLength {
        var spacesToAdd := Spaces(DefaultHeaderColLength - headerLength);
        formattedHeader := header + spacesToAdd;
      }
      var formattedValues := Join(values, ' ');
      assert formattedHeader + formattedValues + "\n" == FormatLine(outputData[i]);
      formattedOutput := formattedOutput + (formattedHeader + formattedValues + "\n");
      FormatTableSnoc(outputData[..i], outputData[i]);
      TakeSnoc(outputData, i);
    }
    assert outputData[..|outputData|] == outputData;
  }

  /** The text holds no line break. */
  predicate NoLineBreak(s: string) {
    '\n' !in s
  }

  /** Nothing in the entry spells a line break. */
  predicate SingleLine(row: Row) {
    NoLineBreak(row.header) && forall k | 0 <= k < |row.values| :: NoLineBreak(row.values[k])
  }

  /** A line can be read back: the header column is the name followed by
      spaces, the values start right after it, and splitting the rest on
      spaces gives the values back when none of them holds a space. */
  lemma LineReadsBack(row: Row)
    requires |row.values| >= 1
    requires |row.header| <= DefaultHeaderColLength
    requires forall k | 0 <= k < |row.values| :: ' ' !in row.values[k]
    ensures var line := FormatLine(row);
      && |line| > DefaultHeaderColLength
      && line[|line| - 1] == '\n'
      && line[..|row.header|] == row.header
      && (forall i | |row.header| <= i < DefaultHeaderColLength :: line[i] == ' ')
      && Split(line[DefaultHeaderColLength..|line| - 1], ' ') == row.values
  {
    var line := FormatLine(row);
    var pad := PadHeader(row.header);
    var joined := Join(row.values, ' ');
    assert line == pad + joined + "\n";
    assert line[DefaultHeaderColLength..|line| - 1] == joined;
    assert line[..|row.header|] == pad[..|row.header|];
    SplitJoin(row.values, ' ');
  }

  /** A line break never appears inside a line of the table. */
  lemma LineBodyHasNoBreak(row: Row)
    requires |row.values| >= 1 && SingleLine(row)
    ensures NoLineBreak(LineBody(row))
  {
    JoinChars(row.values, ' ', '\n');
  }

  /** The bodies of the lines, one per entry, in order. */
  function LineBodies(table: seq<Row>): (lines: seq<string>)
    requires Printable(table)
    ensures |lines| == |table|
  {
    if table == [] then [] else [LineBody(table[0])] + LineBodies(table[1..])
  }

  /** The table has exactly one line per entry, in order: splitting it at line
      breaks gives the line of each entry and then the empty rest after the
      last break. */
  lemma {:induction false} TableLines(table: seq<Row>)
    requires Printable(table)
    requires forall i | 0 <= i < |table| :: SingleLine(table[i])
    ensures Split(FormatTable(table), '\n') == LineBodies(table) + [""]
  {
    if table != [] {
      var body := LineBody(table[0]);
      LineBodyHasNoBreak(table[0]);
      TableLines(table[1..]);
      SplitAfterPiece(body, '\n', FormatTable(table[1..]));
      ConsSnoc(body, LineBodies(table[1..]), "");
    }
  }

  lemma ConsSnoc<T>(x: T, middle: seq<T>, y: T)
    ensures [x] + (middle + [y]) == ([x] + middle) + [y]
  {
  }
}
