# cron_parser in Dafny

A model of `cron_parser.py`, a small command-line tool that reads a
standard five-field cron expression followed by a command and prints the
times it expands to.

`*/15 0 1,15 * 1-5 /usr/bin/find` becomes a six-line table: the minutes
0 15 30 45, hour 0, days 1 and 15 of the month, every month, weekdays 1 to 5,
and the command.

The model has seven files:

- `text.dfy` (module `Text`) covers the Python built-ins the parser relies on:
  - `str.split` with a one-character separator;
  - the `reduce` that joins values with spaces;
  - `int()` on decimal text and `str()` on a non-negative integer.
- `cron_config.dfy` (module `CronConfig`) holds:
  - the two tables `MINMAX_VALUE_CONFIG` and `CRON_POSITION_CONFIG`, and the header width;
  - the errors the parser raises, as a `CronError` value inside a `Result`;
  - the forms a field token can take.
- `cron_fields.dfy` (module `CronFields`) covers the helper predicates and the body of the per-field loop:
  - `ExpandToken` states that loop body branch by branch, as the source runs it. The dash and interval checks run first, for every token, and their errors win.
  - The method `ExpandField` executes the loop body and is proved equal to `ExpandToken`.
  - `ExpandByForm` gives a second reading: it classifies the token into a `Form` (`Classify`) and then bounds-checks and expands that form (`Expand`).
- `cron_parser.dfy` (module `CronParser`) covers `parse_cron_command`:
  - The method `ParseCronCommand` fills the six lists of the output dictionary token by token.
  - It is proved equal to `ParseCron`, which states the result outright: every time field given a token expands, the first failure wins, and position 6 does not exist.
- `cron_format.dfy` (module `CronFormat`) covers `format_output_values`. The method `FormatOutputValues` is proved to build `FormatTable`, a table with one padded line per entry.
- `cron_examples.dfy` and `cron_output_examples.dfy` state the cases of `tests/test_cron_parser.py` and the docstring example as lemmas.

## Model

| member | source | states |
|---|---|---|
| Text.Split | cron_parser.py:152 | `str.split`: at least one piece, no piece holds the separator, a text without the separator is its own single piece, and a text holding it splits into two or more pieces |
| Text.SplitAfterPiece | cron_parser.py:152 | a piece without the separator, then the separator, then a rest: splitting gives that piece followed by the pieces of the rest |
| Text.SplitSnoc | cron_parser.py:152 | splitting a text, a separator and a separator-free last piece gives the pieces of the text followed by that last piece |
| Text.SplitJoin | cron_parser.py:228 | splitting what `reduce` joined with a separator gives the pieces back, as long as no piece holds the separator |
| Text.JoinSplit | cron_parser.py:102 | joining the pieces of a split with the same separator gives the original text back |
| Text.JoinAppend | cron_parser.py:228 | joining two non-empty runs of values puts exactly one separator between their joins |
| Text.JoinChars | cron_parser.py:228 | a character absent from the values and different from the separator is absent from their join |
| Text.Join | cron_parser.py:228 | the `reduce` that puts one separator between consecutive values; it carries no contract of its own, and SplitJoin, JoinSplit, JoinAppend and JoinChars state what it means |
| Text.ParseInt | cron_parser.py:89-93 | `int()` on a token gives a number exactly when the token is a digit run; ParseNatToString and NatToStringParse pin down which number |
| Text.NatToString | cron_parser.py:169 | `str()` of a non-negative integer is a digit run with no redundant leading zero |
| Text.ParseNatToString | cron_parser.py:169 | `int(str(n)) == n` for every non-negative `n` |
| Text.NatToStringParse | cron_parser.py:169 | a digit run without a redundant leading zero is `str()` of its value, so rendering and parsing are inverse |
| Text.NatToStringInjective | cron_parser.py:169 | distinct numbers render as distinct text |
| CronConfig.IntOf | cron_parser.py:89-93 | `int(text)` succeeds exactly on digit runs, and otherwise fails with the error naming the text |
| CronConfig.Message | cron_parser.py:174-207 | the bounds messages (lines 174, 188, 191, 201) begin with the field's name; the format message (line 207) is `Invalid format for ` followed by the field's name |
| CronConfig.Field | cron_parser.py:155-160 | the field at a time-field position is named by `CRON_POSITION_CONFIG` at that position, is not the command, and has `min <= max` from `MINMAX_VALUE_CONFIG` |
| CronConfig.CommandPosition | cron_parser.py:41-48 | "command" is the name of position 5 and of no other position |
| CronConfig.FieldTable | cron_parser.py:27-48 | the five time fields are minute 0-59, hour 0-23, day of month 1-31, month 1-12 and day of week 0-7, in token order |
| CronFields.IsAsterisk | cron_parser.py:78-82 | a wildcard is exactly the one-character token `*`, which is neither a number nor a token holding `-` or `,` |
| CronFields.IsSingleNumber | cron_parser.py:85-93 | a token is a single number exactly when `int()` accepts it, that is when it is a digit run |
| CronFields.IsDashRange | cron_parser.py:96-108 | no range (`None`) exactly when the token holds no `-`; a range that is returned has start <= end |
| CronFields.DashTokenShape | cron_parser.py:96-108 | a token accepted as a dash range is not a wildcard, a number, a step token or a list |
| CronFields.IsInterval | cron_parser.py:111-119 | no interval exactly when the token does not start with `*/` |
| CronFields.IsCommaRange | cron_parser.py:122-129 | a token holding a comma yields at least two pieces |
| CronFields.IsOutsideAllowedRange | cron_parser.py:132-136 | a value is not outside the allowed range exactly when `min <= value <= max`, both bounds inclusive |
| CronFields.Classify | cron_parser.py:159-208 | every form the chain picks meets that form's guarantees: a parsed number, a positive step, start <= end with a non-zero end, or at least two list elements; a token holding `-` is only ever classified as a range |
| CronFields.Render | cron_parser.py:168-169 | `str()` of each number, in order, with the same length |
| CronFields.AppendRange | cron_parser.py:168-169 | the `for i in range(start, stop, step): append(str(i))` loop appends exactly the rendered range to the list |
| CronFields.AppendItems | cron_parser.py:198-204 | the list loop fails with the error of the first refused element; otherwise it appends the elements as written, in order |
| CronFields.ItemError | cron_parser.py:200-202 | the check of one list element: `int()`'s error when it is not a number, the field's range error when it is out of bounds, nothing otherwise; it carries no contract, and FirstItemError, FirstItemErrorIsFirst and ItemsWithin state its effect |
| CronFields.FirstItemError | cron_parser.py:199-202 | a refused list element fails either with `<field> value is outside allowed range` for this field or with `int()`'s own error |
| CronFields.ExpandToken | cron_parser.py:159-208 | every error the loop body raises for a time field is a `ValueError`, and every message that names a field names this one |
| CronFields.Expand | cron_parser.py:167-204 | the bounds checks and expansion of each form, in the branch order of the source; it carries no contract, and WildcardExpansion, IntervalExpansion, RangeExpansion and CommaListExpansion state what each form yields |
| CronFields.ExpandByForm | cron_parser.py:159-208 | the token classified, then its form expanded; it carries no contract, and ExpandTokenByForm proves it equal to the loop body for every token |
| CronFields.ExpandField | cron_parser.py:159-208 | the loop body of one time field produces exactly `ExpandToken`: the values appended or the error raised |
| CronFields.WildcardToken | cron_parser.py:167-169 | `*` expands to `range(min, max + 1)` rendered |
| CronFields.CheckErrors | cron_parser.py:162-164 | an error from the dash check, or else from the interval check, is the result whatever the token's form |
| CronFields.WildcardBranch | cron_parser.py:167-169 | for `*`, the loop body agrees with classify-then-expand |
| CronFields.SingleBranch | cron_parser.py:172-177 | for a number, the loop body agrees with classify-then-expand |
| CronFields.IntervalBranch | cron_parser.py:180-182 | for a non-zero interval, the loop body agrees with classify-then-expand |
| CronFields.RangeBranch | cron_parser.py:185-195 | for a dash range with a non-zero end, the loop body agrees with classify-then-expand |
| CronFields.ListBranch | cron_parser.py:198-208 | when no earlier branch applies, the loop body agrees with classify-then-expand |
| CronFields.ExpandTokenByForm | cron_parser.py:159-208 | for every token, the if/elif chain equals the token classified into a form and then bounds-checked and expanded |
| CronFields.PyRange | cron_parser.py:181 | `range(start, stop, step)` for a positive step: the values from `start` upwards in steps of `step`, all below `stop`; PyRangeSpec and PyRangeBounds state its contents |
| CronFields.PyRangeBounds | cron_parser.py:181 | every value of `range(start, stop, step)` lies between `start` and `stop - 1` |
| CronFields.PyRangeSpec | cron_parser.py:181 | `range(start, stop, step)` holds `start + k * step` at each position `k`, every value is below `stop`, and the next value would not be |
| CronFields.PyRangeSplit | cron_parser.py:194 | a consecutive range splits at any point into two consecutive ranges |
| CronFields.RenderAppend | cron_parser.py:169 | rendering distributes over concatenation |
| CronFields.PyRangeConsecutive | cron_parser.py:194 | `range(start, stop)` is the `stop - start` consecutive integers from `start` |
| CronFields.WildcardExpansion | cron_parser.py:167-169 | `*` yields `max - min + 1` values, `str(min + k)` at position `k`, ascending |
| CronFields.RenderedConsecutive | cron_parser.py:194-195 | `range(start, stop)` rendered holds `stop - start` values, `str(start + k)` at position `k` |
| CronFields.StepTokenValue | cron_parser.py:180-182 | a step token whose last `/` piece is `v` expands to `range(min, max, v)` when `v` is non-zero, and otherwise raises the field's format error because 0 is falsy |
| CronFields.StepShape | cron_parser.py:111-119 | `*/N` with N a number passes the interval check with value N and holds no `-` or `,` |
| CronFields.StepToken | cron_parser.py:180-182 | `*/N` expands to `range(min, max, N)` for N > 0; `*/0` raises `Invalid format for <field> field` |
| CronFields.IntervalExpansion | cron_parser.py:180-182 | `*/N` with N > 0 yields `min, min + N, ...` strictly below `max`, so `max` is never produced and no value of the progression below it is missed |
| CronFields.RenderedProgression | cron_parser.py:181-182 | `range(start, stop, n)` rendered holds `str(start + k * n)` at position `k`, each number below `stop`, with the next one not below it |
| CronFields.StepPieces | cron_parser.py:117 | `*/s/t` splits on `/` into `*`, `s` and `t` |
| CronFields.StepTakesLastPiece | cron_parser.py:116-118 | `*/s/t` expands like `*/t`: only the piece after the last `/` counts |
| CronFields.SingleNumberExpansion | cron_parser.py:172-177 | a number within the bounds gives a one-element list holding the token text unchanged; a number outside them raises `<field> value is outside allowed range` |
| CronFields.DashTokenErrors | cron_parser.py:96-108 | any token holding `-` must be two numbers with start <= end, otherwise it raises the unpacking, `int()` or `Invalid range values supplied` error, whatever branch would apply later |
| CronFields.DashRangeOfNumbers | cron_parser.py:101-105 | `A-B` with A and B numbers splits into `[A, B]`, and the dash check returns `(A, B)` when A <= B and raises otherwise |
| CronFields.RangeExpansion | cron_parser.py:187-195 | a range checks its start bound before its end bound, with those messages, and otherwise yields the `end - start + 1` consecutive values from `start` |
| CronFields.ClassifyRange | cron_parser.py:185 | `A-B` with A <= B is the range form when B is non-zero, and a format error when B is 0 |
| CronFields.RangeTokenExpansion | cron_parser.py:185-195 | the token `A-B` with A <= B and B > 0: start bound first, then end bound, then `B - A + 1` consecutive values from A |
| CronFields.RangeToken | cron_parser.py:185-195 | the token `A-B` with A <= B and B > 0 expands as the range form from A to B |
| CronFields.DashBranch | cron_parser.py:185-195 | a token accepted by the dash check with a non-zero end takes the range branch |
| CronFields.ZeroRangeIsInvalidFormat | cron_parser.py:185 | `0-0` raises `Invalid format for <field> field`, because the guard tests the end value for truthiness |
| CronFields.FirstItemErrorIsFirst | cron_parser.py:199-202 | a list is refused exactly when some element is refused, and the error is that of the first refused element, with every element before it accepted |
| CronFields.CommaListExpansion | cron_parser.py:198-204 | a list token fails with the first refused element's error; otherwise it yields the elements as written, in input order, with duplicates kept |
| CronFields.RenderedWithin | cron_parser.py:168-195 | a range starting at or above `min` and stopping at most at `max + 1` renders to numbers within the field's bounds (the wildcard, interval and range loops) |
| CronFields.ItemsWithin | cron_parser.py:198-204 | when no list element is refused, every element is a number within the field's bounds |
| CronFields.ExpandTokenWithinBounds | cron_parser.py:159-208 | every value of a successful expansion, whatever the token's form, is the text of a number within the field's bounds |
| CronFields.UnrecognisedToken | cron_parser.py:206-208 | a token of no recognised form raises `Invalid format for <field> field` |
| CronParser.Collect | cron_parser.py:154-208 | a successful collection holds one value per result, each the value of that result |
| CronParser.CollectStopsAt | cron_parser.py:154-208 | a failure after only successes decides the outcome, whatever follows it |
| CronParser.CollectOk | cron_parser.py:154-208 | collecting succeeds exactly when every result succeeds |
| CronParser.CollectFirstError | cron_parser.py:154-208 | the first failing result decides the error |
| CronParser.StoreToken | cron_parser.py:155-208 | one pass of the loop fails with `NoSuchPosition` (the `KeyError` of line 155) exactly when the position is past 5; at position 5 it appends the token to the command list; a successful pass keeps six lists and changes none but the one at its position (StoreFieldMatches states the field case) |
| CronParser.StoreFieldMatches | cron_parser.py:159-208 | storing a time field's expansion keeps the loop in step with the declared outcome |
| CronParser.StoreCommandMatches | cron_parser.py:156-157 | appending the command token keeps the loop in step with the declared outcome |
| CronParser.ExpectedStaysErr | cron_parser.py:154-208 | once a token has failed, later tokens change nothing |
| CronParser.ParsePrefixMatches | cron_parser.py:154-208 | the token loop computes the output lists stated by `Expected` |
| CronParser.ParsePrefixStep | cron_parser.py:154-208 | each pass of the loop keeps it equal to `Expected` |
| CronParser.ParsePrefixStaysErr | cron_parser.py:154-208 | once the loop has failed it stays failed |
| CronParser.ParseCron | cron_parser.py:139-210 | a successful parse came from at most six tokens and has six rows whose headers are the position names in order |
| CronParser.ParseCronOk | cron_parser.py:143-157 | a successful parse has at most six tokens and six rows named minute, hour, day of month, month, day of week and command, in that order. Each given time field holds its token's expansion, missing fields stay empty, and the command row holds the sixth token verbatim and unvalidated |
| CronParser.ParseCronSucceeds | cron_parser.py:152-208 | the parse succeeds exactly when there are at most six tokens and every given time field expands |
| CronParser.ParseCronTable | cron_parser.py:143-210 | six tokens whose fields all expand give exactly the table of those values followed by the command |
| CronParser.ParseCronFirstError | cron_parser.py:154-208 | fields are parsed left to right, and the first failing field aborts the parse with its error |
| CronParser.ParseCronTooManyTokens | cron_parser.py:155 | a seventh token fails on the lookup of position 6 once the time fields have expanded |
| CronParser.ParseCronCommand | cron_parser.py:139-210 | the parser's loop returns exactly `ParseCron` of its input |
| CronFormat.Spaces | cron_parser.py:225 | `' ' * n` is `n` spaces |
| CronFormat.PadHeader | cron_parser.py:221-226 | a header shorter than 14 is right-padded with spaces to 14; a longer one is unchanged |
| CronFormat.LineBody | cron_parser.py:221-228 | the padded header followed by the values joined with single spaces; it carries no contract, and LineReadsBack and LineBodyHasNoBreak state what it holds |
| CronFormat.FormatLine | cron_parser.py:221-230 | a line is longer than the 14-column header column |
| CronFormat.FormatTable | cron_parser.py:213-232 | the output is empty exactly when there are no entries, otherwise ends with `\n`, and holds at least 15 characters per entry |
| CronFormat.FormatTableSnoc | cron_parser.py:230 | one more entry adds its line at the end of the table |
| CronFormat.FormatOutputValues | cron_parser.py:213-232 | the loop builds `FormatTable`: one line per entry, in dictionary order |
| CronFormat.LineReadsBack | cron_parser.py:213-230 | a line is the header, spaces up to column 14, the values and `\n`, and splitting its value part on spaces gives the values back |
| CronFormat.LineBodyHasNoBreak | cron_parser.py:228-230 | a line holds no break before its final `\n` when its entry has none |
| CronFormat.TableLines | cron_parser.py:220-232 | splitting the table at line breaks gives exactly one line per entry, in order |
| CronExamples.SplitSix | cron_parser.py:152 | six tokens without spaces, joined by single spaces, split back into those six |
| CronExamples.EveryFifteenMinutes | tests/test_cron_parser.py:9 | `*/15` on minute gives 0 15 30 45 |
| CronExamples.MidnightHour | tests/test_cron_parser.py:10 | `0` on hour gives 0 |
| CronExamples.FirstAndFifteenthDay | tests/test_cron_parser.py:11 | `1,15` on day of month gives 1 15 |
| CronExamples.EveryMonth | tests/test_cron_parser.py:12 | `*` on month gives 1 to 12 |
| CronExamples.WeekdayForm | tests/test_cron_parser.py:13 | the range form from 1 to 5 on day of week expands to 1 2 3 4 5 |
| CronExamples.WeekdaysOnly | tests/test_cron_parser.py:13 | `1-5` on day of week gives 1 to 5 |
| CronExamples.ValidCronField | tests/test_cron_parser.py:6-19 | each time field of the valid example expands to its expected values |
| CronExamples.ValidCronParses | tests/test_cron_parser.py:6-19 | `*/15 0 1,15 * 1-5 /usr/bin/find` parses to the expected dictionary |
| CronExamples.SlashWithoutAsterisk | tests/test_cron_parser.py:21-27 | `1/15` on minute is an unrecognised token |
| CronExamples.SlashCronFails | tests/test_cron_parser.py:21-27 | `1/15 0 1,15 * 1-5 /usr/bin/find` raises `Invalid format for minute field` |
| CronExamples.BackwardsWeekdayRange | tests/test_cron_parser.py:29-36 | `1-0` raises `Invalid range values supplied` |
| CronExamples.BackwardsCronFails | tests/test_cron_parser.py:29-36 | the cron string with `1-0` as day of week raises `Invalid range values supplied` |
| CronExamples.DayRangePastMonthEnd | tests/test_cron_parser.py:38-44 | `1-45` on day of month raises the end-bound error |
| CronExamples.LongMonthCronFails | tests/test_cron_parser.py:38-44 | the cron string with `1-45` as day of month raises `day of month end value is outside allowed range` |
| CronExamples.WeekdayRangePastSunday | tests/test_cron_parser.py:46-52 | `1-8` on day of week raises the end-bound error |
| CronExamples.LongWeekCronFails | tests/test_cron_parser.py:46-52 | the cron string with `1-8` as day of week raises `day of week end value is outside allowed range` |
| CronExamples.ThirteenthMonth | tests/test_cron_parser.py:54-60 | `13` on month raises the single-value bound error |
| CronExamples.LongYearCronFails | tests/test_cron_parser.py:54-60 | the cron string with month `13` raises `month value is outside allowed range`, before the bad day of week is reached |
| CronExamples.TestMessages | tests/test_cron_parser.py:21-60 | each expected error is a `ValueError` whose text is the message the tests expect |
| CronOutputExamples.PaddedNames | cron_parser.py:221-226 | each of the six field names padded to 14 columns |
| CronOutputExamples.SixLines | cron_parser.py:220-232 | a six-entry table is its six lines in order |
| CronOutputExamples.ValidCronOutput | tests/test_cron_parser.py:62-83 | the expected dictionary formats to the expected six-line table |
| CronOutputExamples.ExampleOutput | cron_parser.py:5-14 | the docstring example's dictionary formats to the docstring table |

## Left out

- `main` and the `__main__` guard (cron_parser.py:54-75, 235-236) are left out. They are argument parsing, `print` and the wrapping of the error text, which is all I/O.
- CronConfig.IntOf: Python's `int()` also accepts a leading `+`, surrounding whitespace (a tab survives the split on spaces), `_` separators and non-ASCII digits. The model accepts only a non-empty run of ASCII decimal digits, leading zeros allowed, so those tokens fail here where Python would accept them. It also sets no limit on the number of digits. Python 3.11 and later, and the security releases of 3.7 to 3.10, refuse decimal text of more than 4300 digits with a `ValueError`. Such a token is a number here but not there. As a whole minute token it gives `Invalid format for minute field` in Python, while here it gives `minute value is outside allowed range`, or is accepted as written when its value, leading zeros aside, lies within the bounds. As a list element it gives `int()`'s own error in Python.
- Text.Join and CronFields.PyRange: neither carries an `ensures` of its own. Every proof that mentions them would pay for one, so their properties are stated by separate lemmas: SplitJoin, JoinSplit, JoinAppend and JoinChars for `Join`; PyRangeSpec, PyRangeBounds, PyRangeConsecutive and PyRangeSplit for `PyRange`.
- Exceptions become `CronError` values in a `Result`, and the first one ends the computation as the raise does. Python raises three of them on the parser's behalf, and each is its own error kind:
  - the `KeyError` for a seventh token (`NoSuchPosition`);
  - the tuple-unpacking error of `1-2-3`;
  - the bare `int()` error.
  The texts of the last two are Python's own and are not part of the model's promises.
- The `KeyError` of a seventh token is not a `ValueError`, so `main` would not catch it (`IsValueError` records this). What `main` then does is not modelled.
- CronFormat.FormatOutputValues: requires every value list to be non-empty. `reduce` without an initial value raises `TypeError` on an empty list, and the parser can return empty lists when the cron string has fewer than six tokens. That error path is not modelled.
- Symbolic month and weekday names (`JAN`, `MON`) are not supported by the source, so they are not modelled.
- The output dictionary is a sequence of `Row`s in key order (Python dictionaries keep insertion order). Its lists are updated by assigning a new list where the source appends in place. Aliasing is not modelled because, while the function runs, no list is shared between two keys or with the caller.
