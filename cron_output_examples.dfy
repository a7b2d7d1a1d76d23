/** The printed table for the example cron line: the expected output of
    `test_output_table_format`, which is also the output shown in the
    module's usage text. Each line is put together from its padded name and
    its joined values, and the six lines from the table's entries in order. */
module CronOutputExamples {
  import opened Text
  import opened CronConfig
  import opened CronFormat
  import opened CronExamples

  /** A line is the padded name, the joined values and a line break. */
  lemma LineOf(row: Row, pad: string, joined: string)
    requires |row.values| >= 1
    requires PadHeader(row.header) == pad && Join(row.values, ' ') == joined
    ensures FormatLine(row) == pad + joined + "\n"
  {
  }

  /** The six names of the table, padded to the column. */
  lemma PaddedNames()
    ensures PadHeader("minute") == "minute        "
    ensures PadHeader("hour") == "hour          "
    ensures PadHeader("day of month") == "day of month  "
    ensures PadHeader("month") == "month         "
    ensures PadHeader("day of week") == "day of week   "
    ensures PadHeader("command") == "command       "
  {
  }

  // The line lemmas below take their entry as a parameter pinned by
  // `requires`, and the glue lemmas take their texts the same way: with the
  // literals in the body the verifier would unfold `Join` and `PadHeader` over
  // the whole line at once, instead of assembling it from its proved pieces.
  lemma MinuteLine(row: Row)
    requires row == Row("minute", ["0", "15", "30", "45"])
    ensures FormatLine(row) == "minute        0 15 30 45\n"
  {
    PaddedNames();
    MinutesText();
    LineOf(row, "minute        ", "0 15 30 45");
  }

  lemma MinutesText()
    ensures Join(["0", "15", "30", "45"], ' ') == "0 15 30 45"
  {
  }

  lemma HourLine(row: Row)
    requires row == Row("hour", ["0"])
    ensures FormatLine(row) == "hour          0\n"
  {
    PaddedNames();
    LineOf(row, "hour          ", "0");
  }

  lemma DayOfMonthLine(row: Row)
    requires row == Row("day of month", ["1", "15"])
    ensures FormatLine(row) == "day of month  1 15\n"
  {
    PaddedNames();
    DaysText();
    LineOf(row, "day of month  ", "1 15");
  }

  lemma MonthLine(row: Row)
    requires row == Row("month", ["1", "2", "3", "4", "5", "6", "7", "8", "9", "10", "11", "12"])
    ensures FormatLine(row) == "month         1 2 3 4 5 6 7 8 9 10 11 12\n"
  {
    PaddedNames();
    MonthsText(row.values);
    LineOf(row, "month         ", "1 2 3 4 5 6 7 8 9 10 11 12");
    MonthLineGlue("month         ", "1 2 3 4 5 6 7 8 9 10 11 12");
  }

  /** The month line from its padded name and its joined values. */
  lemma MonthLineGlue(pad: string, joined: string)
    requires pad == "month         " && joined == "1 2 3 4 5 6 7 8 9 10 11 12"
    ensures pad + joined + "\n" == "month         1 2 3 4 5 6 7 8 9 10 11 12\n"
  {
  }

  /** The twelve month numbers joined, as two runs of six. */
  lemma MonthsText(months: seq<string>)
    requires months == ["1", "2", "3", "4", "5", "6", "7", "8", "9", "10", "11", "12"]
    ensures Join(months, ' ') == "1 2 3 4 5 6 7 8 9 10 11 12"
  {
    assert months == months[..6] + months[6..];
    assert months[..6] == ["1", "2", "3", "4", "5", "6"];
    assert months[6..] == ["7", "8", "9", "10", "11", "12"];
    FirstHalfText();
    SecondHalfText(months[6..]);
    JoinAppend(months[..6], months[6..], ' ');
    MonthsGlue("1 2 3 4 5 6", "7 8 9 10 11 12");
  }

  lemma FirstHalfText()
    ensures Join(["1", "2", "3", "4", "5", "6"], ' ') == "1 2 3 4 5 6"
  {
  }

  lemma SecondHalfText(months: seq<string>)
    requires months == ["7", "8", "9", "10", "11", "12"]
    ensures Join(months, ' ') == "7 8 9 10 11 12"
  {
    assert months == months[..3] + months[3..];
    assert months[..3] == ["7", "8", "9"];
    assert months[3..] == ["10", "11", "12"];
    MonthsSevenToNineText();
    MonthsTenToTwelveText();
    JoinAppend(months[..3], months[3..], ' ');
    SecondHalfGlue("7 8 9", "10 11 12");
  }

  lemma MonthsSevenToNineText()
    ensures Join(["7", "8", "9"], ' ') == "7 8 9"
  {
  }

  lemma MonthsTenToTwelveText()
    ensures Join(["10", "11", "12"], ' ') == "10 11 12"
  {
  }

  /** The second half year's text from its two quarters. */
  lemma SecondHalfGlue(first: string, second: string)
    requires first == "7 8 9" && second == "10 11 12"
    ensures first + " " + second == "7 8 9 10 11 12"
  {
  }

  /** The months' text from its two halves. */
  lemma MonthsGlue(first: string, second: string)
    requires first == "1 2 3 4 5 6" && second == "7 8 9 10 11 12"
    ensures first + " " + second == "1 2 3 4 5 6 7 8 9 10 11 12"
  {
  }

  lemma DayOfWeekLine(row: Row)
    requires row == Row("day of week", ["1", "2", "3", "4", "5"])
    ensures FormatLine(row) == "day of week   1 2 3 4 5\n"
  {
    PaddedNames();
    WeekdaysText();
    LineOf(row, "day of week   ", "1 2 3 4 5");
  }

  lemma DaysText()
    ensures Join(["1", "15"], ' ') == "1 15"
  {
  }

  lemma WeekdaysText()
    ensures Join(["1", "2", "3", "4", "5"], ' ') == "1 2 3 4 5"
  {
  }

  lemma CommandLine(row: Row)
    requires row == Row("command", ["/usr/bin/find"])
    ensures FormatLine(row) == "command       /usr/bin/find\n"
  {
    PaddedNames();
    LineOf(row, "command       ", "/usr/bin/find");
  }

  /** The first `k + 1` entries print as the first `k` followed by the line of entry `k`. */
  lemma PrefixStep(t: seq<Row>, k: nat, text: string)
    requires k < |t| && Printable(t)
    requires Printable(t[..k]) && FormatTable(t[..k]) == text
    ensures Printable(t[..k + 1]) && FormatTable(t[..k + 1]) == text + FormatLine(t[k])
  {
    TakeSnoc(t, k);
    FormatTableSnoc(t[..k], t[k]);
  }

  /** A table of six entries prints their six lines one after the other. */
  lemma SixLines(t: seq<Row>, l0: string, l1: string, l2: string, l3: string, l4: string, l5: string)
    requires |t| == 6 && Printable(t)
    requires FormatLine(t[0]) == l0 && FormatLine(t[1]) == l1 && FormatLine(t[2]) == l2
    requires FormatLine(t[3]) == l3 && FormatLine(t[4]) == l4 && FormatLine(t[5]) == l5
    ensures FormatTable(t) == l0 + l1 + l2 + l3 + l4 + l5
  {
    assert t[..1] == [t[0]];
    assert FormatTable(t[..1]) == l0;
    PrefixStep(t, 1, l0);
    PrefixStep(t, 2, l0 + l1);
    PrefixStep(t, 3, l0 + l1 + l2);
    PrefixStep(t, 4, l0 + l1 + l2 + l3);
    PrefixStep(t, 5, l0 + l1 + l2 + l3 + l4);
    assert t[..6] == t;
  }

  /** `test_output_table_format`: the parsed table of the example line prints
      as these six lines, in the parser's order. */
  lemma ValidCronOutput()
    ensures Printable(ValidCronTable)
    ensures FormatTable(ValidCronTable)
      == "minute        0 15 30 45\n"
      + "hour          0\n"
      + "day of month  1 15\n"
      + "month         1 2 3 4 5 6 7 8 9 10 11 12\n"
      + "day of week   1 2 3 4 5\n"
      + "command       /usr/bin/find\n"
  {
    ExampleOutput(ValidCronTable);
  }

  lemma ExampleOutput(t: seq<Row>)
    requires t == [
      Row("minute", ["0", "15", "30", "45"]),
      Row("hour", ["0"]),
      Row("day of month", ["1", "15"]),
      Row("month", ["1", "2", "3", "4", "5", "6", "7", "8", "9", "10", "11", "12"]),
      Row("day of week", ["1", "2", "3", "4", "5"]),
      Row("command", ["/usr/bin/find"])]
    ensures Printable(t)
    ensures FormatTable(t)
      == "minute        0 15 30 45\n"
      + "hour          0\n"
      + "day of month  1 15\n"
      + "month         1 2 3 4 5 6 7 8 9 10 11 12\n"
      + "day of week   1 2 3 4 5\n"
      + "command       /usr/bin/find\n"
  {
    assert Printable(t);
    MinuteLine(t[0]);
    HourLine(t[1]);
    DayOfMonthLine(t[2]);
    MonthLine(t[3]);
    DayOfWeekLine(t[4]);
    CommandLine(t[5]);
    SixLines(t,
      "minute        0 15 30 45\n",
      "hour          0\n",
      "day of month  1 15\n",
      "month         1 2 3 4 5 6 7 8 9 10 11 12\n",
      "day of week   1 2 3 4 5\n",
      "command       /usr/bin/find\n");
  }
}
