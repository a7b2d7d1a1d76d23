/** The schedules of the parser's unit tests, worked through the model: what
    each token of them expands to, and what the whole parse returns. */
module CronExamples {
  import opened Text
  import opened CronConfig
  import opened CronFields
  import opened CronParser

  /** Six space-free tokens joined by single spaces split back into those tokens. */
  lemma SplitSix(t0: string, t1: string, t2: string, t3: string, t4: string, t5: string)
    requires ' ' !in t0 && ' ' !in t1 && ' ' !in t2 && ' ' !in t3 && ' ' !in t4 && ' ' !in t5
    ensures Split(t0 + " " + t1 + " " + t2 + " " + t3 + " " + t4 + " " + t5, ' ') == [t0, t1, t2, t3, t4, t5]
  {
    var s1 := t0 + " " + t1;
    SplitSnoc(t0, ' ', t1);
    assert Split(s1, ' ') == [t0, t1];
    var s2 := s1 + " " + t2;
    SplitSnoc(s1, ' ', t2);
    assert Split(s2, ' ') == [t0, t1, t2];
    var s3 := s2 + " " + t3;
    SplitSnoc(s2, ' ', t3);
    assert Split(s3, ' ') == [t0, t1, t2, t3];
    var s4 := s3 + " " + t4;
    SplitSnoc(s3, ' ', t4);
    assert Split(s4, ' ') == [t0, t1, t2, t3, t4];
    SplitSnoc(s4, ' ', t5);
  }

  // `*/15` as a minute: every quarter hour.
  lemma EveryFifteenMinutes()
    ensures ExpandToken("*/15", Field(0)) == Ok(["0", "15", "30", "45"])
  {
    assert IsDigits("15");
    assert DigitsValue("15") == 15 by {
      assert "15"[..1] == "1";
    }
    StepToken("15", Field(0));
    assert "*/" + "15" == "*/15";
    FieldTable();
    QuarterHours();
  }

  lemma QuarterHours()
    ensures Render(PyRange(0, 59, 15)) == ["0", "15", "30", "45"]
  {
    assert PyRange(0, 59, 15) == [0, 15, 30, 45];
    assert NatToString(15) == "15" && NatToString(30) == "30" && NatToString(45) == "45";
  }

  /** `0` as an hour: kept as written. */
  lemma MidnightHour()
    ensures ExpandToken("0", Field(1)) == Ok(["0"])
  {
    assert IsDigits("0");
    SingleNumberExpansion("0", Field(1));
  }

  /** `1,15` as a day of the month: the two days, as written. */
  lemma FirstAndFifteenthDay()
    ensures ExpandToken("1,15", Field(2)) == Ok(["1", "15"])
  {
    var items := ["1", "15"];
    assert Join(items, ',') == "1,15";
    assert ParseInt("1") == Some(1);
    assert ParseInt("15") == Some(15) by {
      assert "15"[..1] == "1";
    }
    assert FirstItemError(items, Field(2)) == None by {
      assert items[1..] == ["15"];
    }
    assert "1,15"[..2] == "1,";
    CommaListExpansion(items, Field(2));
  }

  /** `*` as a month: all twelve months. */
  lemma EveryMonth()
    ensures ExpandToken("*", Field(3)) == Ok(["1", "2", "3", "4", "5", "6", "7", "8", "9", "10", "11", "12"])
  {
    WildcardToken(Field(3));
    FieldTable();
    MonthNumbers(1, 7, 13);
  }

  // The month numbers, rendered half a year at a time. The bounds are
  // parameters pinned by `requires` rather than literals, so that no lemma
  // unfolds the whole run of twelve at once; the two halves and the lemma that
  // glues them take their bounds and lists the same way.
  lemma MonthNumbers(first: nat, mid: nat, stop: nat)
    requires first == 1 && mid == 7 && stop == 13
    ensures Render(PyRange(first, stop, 1)) == ["1", "2", "3", "4", "5", "6", "7", "8", "9", "10", "11", "12"]
  {
    PyRangeSplit(first, mid, stop);
    RenderAppend(PyRange(first, mid, 1), PyRange(mid, stop, 1));
    FirstHalfYear(first, mid);
    SecondHalfYear(mid, stop);
    MonthListGlue(Render(PyRange(first, mid, 1)), Render(PyRange(mid, stop, 1)));
  }

  /** The twelve month values from their two halves. */
  lemma MonthListGlue(firstHalf: seq<string>, secondHalf: seq<string>)
    requires firstHalf == ["1", "2", "3", "4", "5", "6"]
    requires secondHalf == ["7", "8", "9", "10", "11", "12"]
    ensures firstHalf + secondHalf == ["1", "2", "3", "4", "5", "6", "7", "8", "9", "10", "11", "12"]
  {
  }

  lemma FirstHalfYear(first: nat, stop: nat)
    requires first == 1 && stop == 7
    ensures Render(PyRange(first, stop, 1)) == ["1", "2", "3", "4", "5", "6"]
  {
    assert PyRange(1, 7, 1) == [1, 2, 3, 4, 5, 6];
  }

  lemma SecondHalfYear(first: nat, stop: nat)
    requires first == 7 && stop == 13
    ensures Render(PyRange(first, stop, 1)) == ["7", "8", "9", "10", "11", "12"]
  {
    LateMonths();
    TwoDigitMonths();
  }

  lemma LateMonths()
    ensures PyRange(7, 13, 1) == [7, 8, 9, 10, 11, 12]
  {
  }

  lemma TwoDigitMonths()
    ensures NatToString(10) == "10" && NatToString(11) == "11" && NatToString(12) == "12"
  {
  }

  /** `1-5` as a day of the week: Monday to Friday. */
  lemma WeekdaysOnly()
    ensures ExpandToken("1-5", Field(4)) == Ok(["1", "2", "3", "4", "5"])
  {
    WeekdayRange("1-5", "1", "5");
  }

  // The token and its two numbers are parameters pinned by `requires` rather
  // than literals in the body, so that the verifier takes the token apart
  // through `RangeToken` instead of unfolding the literal text eagerly.
  lemma WeekdayRange(token: string, first: string, last: string)
    requires first == "1" && last == "5" && token == first + "-" + last
    ensures ExpandToken(token, Field(4)) == Ok(["1", "2", "3", "4", "5"])
  {
    assert IsDigits(first) && IsDigits(last);
    assert DigitsValue(first) == 1 && DigitsValue(last) == 5;
    RangeToken(first, last, Field(4));
    WeekdayForm();
  }

  /** The range form from 1 to 5 as a day of the week. */
  lemma WeekdayForm()
    ensures Expand(Range(1, 5), Field(4)) == Ok(["1", "2", "3", "4", "5"])
  {
    FieldTable();
    WeekdayNumbers();
  }

  lemma WeekdayNumbers()
    ensures Render(PyRange(1, 6, 1)) == ["1", "2", "3", "4", "5"]
  {
    assert PyRange(1, 6, 1) == [1, 2, 3, 4, 5];
  }

  /** The schedule of the parser's success test, and its tokens. */
  const ValidCron: string := "*/15 0 1,15 * 1-5 /usr/bin/find"
  const ValidCronTokens: seq<string> := ["*/15", "0", "1,15", "*", "1-5", "/usr/bin/find"]

  /** The values the success test expects for the five time fields. */
  const ValidCronValues: seq<seq<string>> := [
    ["0", "15", "30", "45"],
    ["0"],
    ["1", "15"],
    ["1", "2", "3", "4", "5", "6", "7", "8", "9", "10", "11", "12"],
    ["1", "2", "3", "4", "5"]]

  lemma ValidCronSplit()
    ensures Split(ValidCron, ' ') == ValidCronTokens
  {
    ValidCronPieces();
    SplitSix("*/15", "0", "1,15", "*", "1-5", "/usr/bin/find");
  }

  lemma ValidCronPieces()
    ensures ValidCron == "*/15" + " " + "0" + " " + "1,15" + " " + "*" + " " + "1-5" + " " + "/usr/bin/find"
  {
  }

  lemma ValidCronField(k: nat)
    requires k < FieldCount
    ensures ExpandToken(ValidCronTokens[k], Field(k)) == Ok(ValidCronValues[k])
  {
    if k == 0 {
      EveryFifteenMinutes();
    } else if k == 1 {
      MidnightHour();
    } else if k == 2 {
      FirstAndFifteenthDay();
    } else if k == 3 {
      EveryMonth();
    } else {
      WeekdaysOnly();
    }
  }

  /** The table the success test expects. */
  const ValidCronTable: seq<Row> := [
    Row("minute", ["0", "15", "30", "45"]),
    Row("hour", ["0"]),
    Row("day of month", ["1", "15"]),
    Row("month", ["1", "2", "3", "4", "5", "6", "7", "8", "9", "10", "11", "12"]),
    Row("day of week", ["1", "2", "3", "4", "5"]),
    Row("command", ["/usr/bin/find"])]

  /** The success test: the schedule parses into the expected table. */
  lemma ValidCronParses()
    ensures ParseCron(ValidCron) == Ok(ValidCronTable)
  {
    ValidCronSplit();
    forall k | 0 <= k < FieldCount
      ensures ExpandToken(Split(ValidCron, ' ')[k], Field(k)) == Ok(ValidCronValues[k])
    {
      ValidCronField(k);
    }
    ParseCronTable(ValidCron, ValidCronValues);
    ValidCronRows(ValidCronValues + [["/usr/bin/find"]]);
  }

  lemma ValidCronRows(lists: seq<seq<string>>)
    requires lists == ValidCronValues + [["/usr/bin/find"]]
    ensures Table(lists) == ValidCronTable
  {
    var rows := Table(lists);
    assert rows[0] == ValidCronTable[0];
    assert rows[1] == ValidCronTable[1];
    assert rows[2] == ValidCronTable[2];
    assert rows[3] == ValidCronTable[3];
    assert rows[4] == ValidCronTable[4];
    assert rows[5] == ValidCronTable[5];
  }

  // `1/15` as a minute: a slash without the leading `*` is no recognised form.
  lemma SlashWithoutAsterisk()
    ensures ExpandToken(SlashCronTokens[0], Field(0)) == Err(InvalidFormat("minute"))
  {
    assert SlashCronTokens[0] == "1/15";
    assert "1/15"[..2] == "1/";
    assert !IsDigit("1/15"[1]);
    UnrecognisedToken("1/15", Field(0));
  }

  /** `1-0` as a day of the week: a range that runs backwards. */
  lemma BackwardsWeekdayRange()
    ensures ExpandToken(BackwardsCronTokens[4], Field(4)) == Err(InvalidRangeValues)
  {
    assert BackwardsCronTokens[4] == "1-0";
    assert IsDigits("1") && IsDigits("0");
    DashRangeOfNumbers("1", "0");
    assert "1" + "-" + "0" == "1-0";
  }

  /** `1-45` as a day of the month: the end is past day 31. */
  lemma DayRangePastMonthEnd()
    ensures ExpandToken(LongMonthCronTokens[2], Field(2)) == Err(EndOutsideAllowedRange("day of month"))
  {
    assert LongMonthCronTokens[2] == "1" + "-" + "45";
    assert IsDigits("1") && IsDigits("45");
    assert DigitsValue("45") == 45 by {
      assert "45"[..1] == "4";
    }
    FieldTable();
    RangeTokenExpansion("1", "45", Field(2));
  }

  /** `1-15` as a day of the month: the first fifteen days. */
  lemma FirstFifteenDays()
    ensures ExpandToken(PrefixWithDays1To15[2], Field(2)).Ok?
  {
    assert PrefixWithDays1To15[2] == "1" + "-" + "15";
    assert IsDigits("1") && IsDigits("15");
    assert DigitsValue("15") == 15 by {
      assert "15"[..1] == "1";
    }
    FieldTable();
    RangeTokenExpansion("1", "15", Field(2));
  }

  /** `1-8` as a day of the week: the end is past 7. */
  lemma WeekdayRangePastSunday()
    ensures ExpandToken(LongWeekCronTokens[4], Field(4)) == Err(EndOutsideAllowedRange("day of week"))
  {
    assert LongWeekCronTokens[4] == "1" + "-" + "8";
    assert IsDigits("1") && IsDigits("8");
    FieldTable();
    RangeTokenExpansion("1", "8", Field(4));
  }

  /** `13` as a month: there are twelve. */
  lemma ThirteenthMonth()
    ensures ExpandToken(LongYearCronTokens[3], Field(3)) == Err(OutsideAllowedRange("month"))
  {
    assert LongYearCronTokens[3] == "13";
    assert IsDigits("13");
    assert DigitsValue("13") == 13 by {
      assert "13"[..1] == "1";
    }
    FieldTable();
    SingleNumberExpansion("13", Field(3));
  }

  /** The schedule of the invalid-format test. */
  const SlashCron: string := "1/15 0 1,15 * 1-5 /usr/bin/find"
  const SlashCronTokens: seq<string> := ["1/15", "0", "1,15", "*", "1-5", "/usr/bin/find"]

  lemma SlashCronSplit()
    ensures Split(SlashCron, ' ') == SlashCronTokens
  {
    SlashCronPieces();
    SplitSix("1/15", "0", "1,15", "*", "1-5", "/usr/bin/find");
  }

  lemma SlashCronPieces()
    ensures SlashCron == "1/15" + " " + "0" + " " + "1,15" + " " + "*" + " " + "1-5" + " " + "/usr/bin/find"
  {
  }

  lemma SlashCronFields()
    ensures var tokens := Split(SlashCron, ' ');
      && |tokens| == |CronPositionConfig|
      && ExpandToken(tokens[0], Field(0)) == Err(InvalidFormat("minute"))
  {
    SlashCronSplit();
    SlashWithoutAsterisk();
  }

  /** The invalid-format test: the minute field is rejected first. */
  lemma SlashCronFails()
    ensures ParseCron(SlashCron) == Err(InvalidFormat("minute"))
  {
    SlashCronFields();
    ParseCronFirstError(SlashCron, 0);
  }

  /** The schedule of the test of a range whose end is below its start. */
  const BackwardsCron: string := "*/15 0 1,15 * 1-0 /usr/bin/find"
  const BackwardsCronTokens: seq<string> := ["*/15", "0", "1,15", "*", "1-0", "/usr/bin/find"]

  lemma BackwardsCronSplit()
    ensures Split(BackwardsCron, ' ') == BackwardsCronTokens
  {
    BackwardsCronPieces();
    SplitSix("*/15", "0", "1,15", "*", "1-0", "/usr/bin/find");
  }

  lemma BackwardsCronPieces()
    ensures BackwardsCron == "*/15" + " " + "0" + " " + "1,15" + " " + "*" + " " + "1-0" + " " + "/usr/bin/find"
  {
  }

  lemma BackwardsCronFields()
    ensures var tokens := Split(BackwardsCron, ' ');
      && |tokens| == |CronPositionConfig|
      && (forall j | 0 <= j < 4 :: ExpandToken(tokens[j], Field(j)).Ok?)
      && ExpandToken(tokens[4], Field(4)) == Err(InvalidRangeValues)
  {
    BackwardsCronSplit();
    forall j | 0 <= j < 4
      ensures ExpandToken(BackwardsCronTokens[j], Field(j)).Ok?
    {
      ValidCronField(j);
    }
    BackwardsWeekdayRange();
  }

  /** The start-above-end test: the first four fields expand and the day of the
      week fails the dash check. */
  lemma BackwardsCronFails()
    ensures ParseCron(BackwardsCron) == Err(InvalidRangeValues)
  {
    BackwardsCronFields();
    ParseCronFirstError(BackwardsCron, 4);
  }

  /** The schedule of the test of a day-of-month range past day 31. */
  const LongMonthCron: string := "*/15 0 1-45 * 1-5 /usr/bin/find"
  const LongMonthCronTokens: seq<string> := ["*/15", "0", "1-45", "*", "1-5", "/usr/bin/find"]

  lemma LongMonthCronSplit()
    ensures Split(LongMonthCron, ' ') == LongMonthCronTokens
  {
    LongMonthCronPieces();
    SplitSix("*/15", "0", "1-45", "*", "1-5", "/usr/bin/find");
  }

  lemma LongMonthCronPieces()
    ensures LongMonthCron == "*/15" + " " + "0" + " " + "1-45" + " " + "*" + " " + "1-5" + " " + "/usr/bin/find"
  {
  }

  lemma LongMonthCronFields()
    ensures var tokens := Split(LongMonthCron, ' ');
      && |tokens| == |CronPositionConfig|
      && (forall j | 0 <= j < 2 :: ExpandToken(tokens[j], Field(j)).Ok?)
      && ExpandToken(tokens[2], Field(2)) == Err(EndOutsideAllowedRange("day of month"))
  {
    LongMonthCronSplit();
    forall j | 0 <= j < 2
      ensures ExpandToken(LongMonthCronTokens[j], Field(j)).Ok?
    {
      ValidCronField(j);
    }
    DayRangePastMonthEnd();
  }

  /** The invalid-day-of-month test: minute and hour expand, and the day of the
      month fails on its end bound. */
  lemma LongMonthCronFails()
    ensures ParseCron(LongMonthCron) == Err(EndOutsideAllowedRange("day of month"))
  {
    LongMonthCronFields();
    ParseCronFirstError(LongMonthCron, 2);
  }

  /** The first four tokens of the last two failing tests. */
  const PrefixWithDays1To15: seq<string> := ["*/15", "0", "1-15", "*"]

  lemma PrefixWithDays1To15Field(j: nat)
    requires j < |PrefixWithDays1To15|
    ensures ExpandToken(PrefixWithDays1To15[j], Field(j)).Ok?
  {
    if j == 2 {
      FirstFifteenDays();
    } else {
      ValidCronField(j);
    }
  }

  /** The schedule of the test of a day-of-week range past 7. */
  const LongWeekCron: string := "*/15 0 1-15 * 1-8 /usr/bin/find"
  const LongWeekCronTokens: seq<string> := ["*/15", "0", "1-15", "*", "1-8", "/usr/bin/find"]

  lemma LongWeekCronSplit()
    ensures Split(LongWeekCron, ' ') == LongWeekCronTokens
  {
    LongWeekCronPieces();
    SplitSix("*/15", "0", "1-15", "*", "1-8", "/usr/bin/find");
  }

  lemma LongWeekCronPieces()
    ensures LongWeekCron == "*/15" + " " + "0" + " " + "1-15" + " " + "*" + " " + "1-8" + " " + "/usr/bin/find"
  {
  }

  lemma LongWeekCronFields()
    ensures var tokens := Split(LongWeekCron, ' ');
      && |tokens| == |CronPositionConfig|
      && (forall j | 0 <= j < 4 :: ExpandToken(tokens[j], Field(j)).Ok?)
      && ExpandToken(tokens[4], Field(4)) == Err(EndOutsideAllowedRange("day of week"))
  {
    LongWeekCronSplit();
    forall j | 0 <= j < 4
      ensures ExpandToken(LongWeekCronTokens[j], Field(j)).Ok?
    {
      PrefixWithDays1To15Field(j);
    }
    WeekdayRangePastSunday();
  }

  /** The invalid-day-of-week test: the first four fields expand and the day of
      the week fails on its end bound. */
  lemma LongWeekCronFails()
    ensures ParseCron(LongWeekCron) == Err(EndOutsideAllowedRange("day of week"))
  {
    LongWeekCronFields();
    ParseCronFirstError(LongWeekCron, 4);
  }

  /** The schedule of the test of month 13, which also has a bad day of the week. */
  const LongYearCron: string := "*/15 0 1-15 13 1-8 /usr/bin/find"
  const LongYearCronTokens: seq<string> := ["*/15", "0", "1-15", "13", "1-8", "/usr/bin/find"]

  lemma LongYearCronSplit()
    ensures Split(LongYearCron, ' ') == LongYearCronTokens
  {
    LongYearCronPieces();
    SplitSix("*/15", "0", "1-15", "13", "1-8", "/usr/bin/find");
  }

  lemma LongYearCronPieces()
    ensures LongYearCron == "*/15" + " " + "0" + " " + "1-15" + " " + "13" + " " + "1-8" + " " + "/usr/bin/find"
  {
  }

  lemma LongYearCronFields()
    ensures var tokens := Split(LongYearCron, ' ');
      && |tokens| == |CronPositionConfig|
      && (forall j | 0 <= j < 3 :: ExpandToken(tokens[j], Field(j)).Ok?)
      && ExpandToken(tokens[3], Field(3)) == Err(OutsideAllowedRange("month"))
  {
    LongYearCronSplit();
    forall j | 0 <= j < 3
      ensures ExpandToken(LongYearCronTokens[j], Field(j)).Ok?
    {
      PrefixWithDays1To15Field(j);
    }
    ThirteenthMonth();
  }

  /** The invalid-month test: the month fails before the day of the week is
      looked at, so its error is the one raised. */
  lemma LongYearCronFails()
    ensures ParseCron(LongYearCron) == Err(OutsideAllowedRange("month"))
  {
    LongYearCronFields();
    ParseCronFirstError(LongYearCron, 3);
  }

  /** The messages the failing tests expect, and the exception class they expect:
      every one is a `ValueError`. The field name opens the out-of-range
      messages. */
  lemma TestMessages()
    ensures IsValueError(InvalidFormat("minute"))
    ensures Message(InvalidFormat("minute")) == "Invalid format for minute field"
    ensures IsValueError(InvalidRangeValues)
    ensures Message(InvalidRangeValues) == "Invalid range values supplied"
    ensures IsValueError(EndOutsideAllowedRange("day of month"))
    ensures Message(EndOutsideAllowedRange("day of month")) == "day of month" + " end value is outside allowed range"
    ensures IsValueError(EndOutsideAllowedRange("day of week"))
    ensures Message(EndOutsideAllowedRange("day of week")) == "day of week" + " end value is outside allowed range"
    ensures IsValueError(OutsideAllowedRange("month"))
    ensures Message(OutsideAllowedRange("month")) == "month" + " value is outside allowed range"
  {
  }
}
