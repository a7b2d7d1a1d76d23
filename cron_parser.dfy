/** The schedule parser, `parse_cron_command`: splits the cron string on single
    spaces, expands the five time fields left to right and keeps the sixth
    token as the command. */
module CronParser {
  import opened Text
  import opened CronConfig
  import opened CronFields

  function Min(a: int, b: int): int {
    if a <= b then a else b
  }

  /** What each of the first `n` tokens expands to, as the field at its position. */
  function FieldResults(tokens: seq<string>, n: nat): (rs: seq<Result<seq<string>>>)
    requires n <= |tokens| && n <= FieldCount
    ensures |rs| == n
  {
    seq(n, k requires 0 <= k < n => ExpandToken(tokens[k], Field(k)))
  }

  /** All the values when every result is a success, otherwise the error of the
      first result that is not. */
  function Collect<T>(rs: seq<Result<T>>): (r: Result<seq<T>>)
    ensures r.Ok? ==> |r.value| == |rs| && forall k | 0 <= k < |rs| :: rs[k] == Ok(r.value[k])
  {
    if rs == [] then Ok([])
    else
      var earlier :- Collect(rs[..|rs| - 1]);
      var last :- rs[|rs| - 1];
      Ok(earlier + [last])
  }

  /** The six lists of the output dictionary: the lists of the fields that were
      given, empty lists for the rest, and the command list. */
  function FieldLists(values: seq<seq<string>>, command: seq<string>): (lists: seq<seq<string>>)
    requires |values| <= FieldCount
  {
    seq(|CronPositionConfig|, i requires 0 <= i < |CronPositionConfig| =>
      if i < |values| then values[i] else if i == FieldCount then command else [])
  }

  /** The command list once the first `n` tokens are stored: the token after the
      time fields, if it has been reached. */
  function CommandAt(tokens: seq<string>, n: nat): seq<string>
    requires n <= |tokens|
  {
    if n > FieldCount then [tokens[FieldCount]] else []
  }

  /** The output dictionary: the six field names, in order, with their lists. */
  function Table(lists: seq<seq<string>>): (rows: seq<Row>)
    requires |lists| == |CronPositionConfig|
  {
    seq(|CronPositionConfig|, i requires 0 <= i < |CronPositionConfig| => Row(CronPositionConfig[i], lists[i]))
  }

  /** The output lists after the first `n` tokens, stated outright: the time
      fields among them must all expand, and there is no position after the
      command. */
  function Expected(tokens: seq<string>, n: nat): Result<seq<seq<string>>>
    requires n <= |tokens|
  {
    var values :- Collect(FieldResults(tokens, Min(n, FieldCount)));
    if n > |CronPositionConfig| then Err(NoSuchPosition(|CronPositionConfig|))
    else Ok(FieldLists(values, CommandAt(tokens, n)))
  }

  /** What `parse_cron_command` returns or raises for the tokens of a cron
      string. A seventh token fails, because position 6 has no name; with fewer
      than six tokens the remaining lists stay empty. */
  function ParseTokens(cronList: seq<string>): Result<seq<Row>> {
    var lists :- Expected(cronList, |cronList|);
    Ok(Table(lists))
  }

  /** What `parse_cron_command` returns or raises for a cron string. */
  function ParseCron(cronCommand: string): (r: Result<seq<Row>>)
    ensures r.Ok? ==> |Split(cronCommand, ' ')| <= |CronPositionConfig|
    ensures r.Ok? ==> (|r.value| == |CronPositionConfig| &&
      forall i | 0 <= i < |r.value| :: r.value[i].header == CronPositionConfig[i])
  {
    ParseTokens(Split(cronCommand, ' '))
  }

  /** One pass of the parser's loop: the token at position `idx` is appended to
      the command list, expanded into its field's list, or refused because the
      position has no name. */
  function StoreToken(lists: seq<seq<string>>, idx: nat, token: string): (r: Result<seq<seq<string>>>)
    requires |lists| == |CronPositionConfig|
    ensures r.Ok? ==> |r.value| == |CronPositionConfig|
    ensures r.Ok? ==> forall j | 0 <= j < |lists| && j != idx :: r.value[j] == lists[j]
    ensures idx >= |CronPositionConfig| <==> r == Err(NoSuchPosition(idx))
    ensures idx == FieldCount ==> r.Ok? && r.value[idx] == lists[idx] + [token]
  {
    if idx >= |CronPositionConfig| then Err(NoSuchPosition(idx))
    else if CronPositionConfig[idx] == "command" then Ok(lists[idx := lists[idx] + [token]])
    else
      CommandPosition(idx);
      var values :- ExpandToken(token, Field(idx));
      Ok(lists[idx := values])
  }

  /** The parser's loop after the first `n` tokens. */
  function ParsePrefix(tokens: seq<string>, n: nat): (r: Result<seq<seq<string>>>)
    requires n <= |tokens|
    ensures r.Ok? ==> |r.value| == |CronPositionConfig|
  {
    if n == 0 then Ok(FieldLists([], []))
    else
      var lists :- ParsePrefix(tokens, n - 1);
      StoreToken(lists, n - 1, tokens[n - 1])
  }

  /** Collecting one more successful result appends its value. */
  lemma CollectSnoc<T>(rs: seq<Result<T>>, values: seq<T>, v: T)
    requires Collect(rs) == Ok(values)
    ensures Collect(rs + [Ok(v)]) == Ok(values + [v])
  {
    assert (rs + [Ok(v)])[..|rs|] == rs;
  }

  /** Collecting after a failure keeps the failure. */
  lemma CollectSnocErr<T>(rs: seq<Result<T>>, x: Result<T>)
    requires Collect(rs).Err?
    ensures Collect(rs + [x]) == Collect(rs)
  {
    assert (rs + [x])[..|rs|] == rs;
  }

  /** Collecting one more failed result fails with its error. */
  lemma CollectSnocFail<T>(rs: seq<Result<T>>, x: Result<T>)
    requires Collect(rs).Ok? && x.Err?
    ensures Collect(rs + [x]) == Err(x.error)
  {
    assert (rs + [x])[..|rs|] == rs;
  }

  /** When the results before position `k` are successes and the one at `k` is
      not, collecting fails with the error at `k`, whatever follows it. */
  lemma {:induction false} CollectStopsAt<T>(rs: seq<Result<T>>, k: nat)
    requires k < |rs|
    requires Collect(rs[..k]).Ok?
    requires rs[k].Err?
    ensures Collect(rs) == Err(rs[k].error)
  {
    var prefix := rs[..|rs| - 1];
    if k < |rs| - 1 {
      assert prefix[..k] == rs[..k];
      CollectStopsAt(prefix, k);
    } else {
      assert prefix == rs[..k];
    }
  }

  /** Collecting succeeds exactly when every result is a success. */
  lemma {:induction false} CollectOk<T>(rs: seq<Result<T>>)
    ensures Collect(rs).Ok? <==> forall k | 0 <= k < |rs| :: rs[k].Ok?
  {
    if rs != [] {
      var prefix := rs[..|rs| - 1];
      CollectOk(prefix);
      assert forall k | 0 <= k < |prefix| :: prefix[k] == rs[k];
    }
  }

  /** Results are taken left to right and the first failure decides the error. */
  lemma CollectFirstError<T>(rs: seq<Result<T>>, k: nat)
    requires k < |rs|
    requires forall j | 0 <= j < k :: rs[j].Ok?
    requires rs[k].Err?
    ensures Collect(rs) == Err(rs[k].error)
  {
    CollectOk(rs[..k]);
    CollectStopsAt(rs, k);
  }

  /** One more time field among the first tokens. */
  lemma FieldResultsSnoc(tokens: seq<string>, n: nat)
    requires n < |tokens| && n < FieldCount
    ensures FieldResults(tokens, n + 1) == FieldResults(tokens, n) + [ExpandToken(tokens[n], Field(n))]
  {
  }

  /** Storing the next field's values in the output lists. */
  lemma FieldListsAddValues(values: seq<seq<string>>, v: seq<string>)
    requires |values| < FieldCount
    ensures FieldLists(values, [])[|values| := v] == FieldLists(values + [v], [])
  {
  }

  /** Storing the command token in the output lists. */
  lemma FieldListsAddCommand(values: seq<seq<string>>, t: string)
    requires |values| == FieldCount
    ensures FieldLists(values, [])[FieldCount := FieldLists(values, [])[FieldCount] + [t]] == FieldLists(values, [t])
  {
    assert FieldLists(values, [])[FieldCount] + [t] == [t];
  }

  /** A time field token, stored after the earlier fields expanded. */
  lemma StoreFieldMatches(tokens: seq<string>, n: nat)
    requires n < |tokens| && n < FieldCount
    requires Expected(tokens, n).Ok?
    ensures StoreToken(Expected(tokens, n).value, n, tokens[n]) == Expected(tokens, n + 1)
  {
    var values := Collect(FieldResults(tokens, n)).value;
    CommandPosition(n);
    FieldResultsSnoc(tokens, n);
    var x := ExpandToken(tokens[n], Field(n));
    if x.Err? {
      CollectSnocFail(FieldResults(tokens, n), x);
    } else {
      CollectSnoc(FieldResults(tokens, n), values, x.value);
      FieldListsAddValues(values, x.value);
    }
  }

  /** The command token, stored after all five fields expanded. */
  lemma StoreCommandMatches(tokens: seq<string>)
    requires FieldCount < |tokens|
    requires Expected(tokens, FieldCount).Ok?
    ensures StoreToken(Expected(tokens, FieldCount).value, FieldCount, tokens[FieldCount]) == Expected(tokens, FieldCount + 1)
  {
    CommandPosition(FieldCount);
    FieldListsAddCommand(Collect(FieldResults(tokens, FieldCount)).value, tokens[FieldCount]);
  }

  /** Once a token has failed, the later ones change nothing. */
  lemma ExpectedStaysErr(tokens: seq<string>, n: nat)
    requires n < |tokens|
    requires Expected(tokens, n).Err?
    ensures Expected(tokens, n + 1) == Expected(tokens, n)
  {
    if n < FieldCount && Collect(FieldResults(tokens, n)).Err? {
      FieldResultsSnoc(tokens, n);
      CollectSnocErr(FieldResults(tokens, n), ExpandToken(tokens[n], Field(n)));
    }
  }

  /** The parser's loop computes the output lists stated outright by `Expected`. */
  lemma {:induction false} ParsePrefixMatches(tokens: seq<string>, n: nat)
    requires n <= |tokens|
    ensures ParsePrefix(tokens, n) == Expected(tokens, n)
  {
    if n > 0 {
      ParsePrefixMatches(tokens, n - 1);
      ParsePrefixStep(tokens, n - 1);
    }
  }

  /** One pass of the loop keeps it in step with `Expected`. */
  lemma ParsePrefixStep(tokens: seq<string>, idx: nat)
    requires idx < |tokens|
    requires ParsePrefix(tokens, idx) == Expected(tokens, idx)
    ensures ParsePrefix(tokens, idx + 1) == Expected(tokens, idx + 1)
  {
    if Expected(tokens, idx).Err? {
      ExpectedStaysErr(tokens, idx);
    } else if idx < FieldCount {
      StoreFieldMatches(tokens, idx);
    } else if idx == FieldCount {
      StoreCommandMatches(tokens);
    }
  }

  /** Once the loop has failed it stays failed. */
  lemma {:induction false} ParsePrefixStaysErr(tokens: seq<string>, n: nat, m: nat)
    requires n <= m <= |tokens|
    requires ParsePrefix(tokens, n).Err?
    ensures ParsePrefix(tokens, m) == ParsePrefix(tokens, n)
  {
    if n < m {
      ParsePrefixStaysErr(tokens, n, m - 1);
      ParsePrefixErrStep(tokens, m - 1);
    }
  }

  /** A failure of the loop is kept by its next pass. */
  lemma ParsePrefixErrStep(tokens: seq<string>, n: nat)
    requires n < |tokens|
    requires ParsePrefix(tokens, n).Err?
    ensures ParsePrefix(tokens, n + 1) == ParsePrefix(tokens, n)
  {
  }

  /** A successful parse: the cron string has at most six tokens; the six rows
      carry the field names in order; each time field given a token holds what
      that token expands to; the time fields without a token stay empty; and the
      command row holds the sixth token as written, if there is one. */
  lemma ParseCronOk(cronCommand: string)
    requires ParseCron(cronCommand).Ok?
    ensures var tokens := Split(cronCommand, ' '); var rows := ParseCron(cronCommand).value;
      && |tokens| <= |CronPositionConfig|
      && |rows| == |CronPositionConfig|
      && (forall i | 0 <= i < |rows| :: rows[i].header == CronPositionConfig[i])
      && (forall k | 0 <= k < FieldCount && k < |tokens| :: ExpandToken(tokens[k], Field(k)) == Ok(rows[k].values))
      && (forall k | |tokens| <= k < FieldCount :: rows[k].values == [])
      && rows[FieldCount].values == (if |tokens| == |CronPositionConfig| then [tokens[FieldCount]] else [])
  {
    var tokens := Split(cronCommand, ' ');
    var results := FieldResults(tokens, Min(|tokens|, FieldCount));
    var values := Collect(results).value;
    var rows := ParseCron(cronCommand).value;
    assert rows == Table(FieldLists(values, CommandAt(tokens, |tokens|)));
    forall k | 0 <= k < FieldCount && k < |tokens|
      ensures ExpandToken(tokens[k], Field(k)) == Ok(rows[k].values)
    {
      assert results[k] == Ok(values[k]);
    }
  }

  /** The parse succeeds exactly when there are at most six tokens and every
      time field given a token expands. */
  lemma ParseCronSucceeds(cronCommand: string)
    ensures var tokens := Split(cronCommand, ' ');
      ParseCron(cronCommand).Ok? <==>
        && |tokens| <= |CronPositionConfig|
        && forall k | 0 <= k < FieldCount && k < |tokens| :: ExpandToken(tokens[k], Field(k)).Ok?
  {
    var tokens := Split(cronCommand, ' ');
    var results := FieldResults(tokens, Min(|tokens|, FieldCount));
    CollectOk(results);
    assert forall k | 0 <= k < |results| :: results[k] == ExpandToken(tokens[k], Field(k));
  }

  /** When the cron string has all six tokens and every time field expands, the
      result is exactly the table of those values followed by the command. */
  lemma ParseCronTable(cronCommand: string, values: seq<seq<string>>)
    requires var tokens := Split(cronCommand, ' ');
      && |tokens| == |CronPositionConfig| && |values| == FieldCount
      && forall k | 0 <= k < FieldCount :: ExpandToken(tokens[k], Field(k)) == Ok(values[k])
    ensures ParseCron(cronCommand) == Ok(Table(values + [[Split(cronCommand, ' ')[FieldCount]]]))
  {
    var tokens := Split(cronCommand, ' ');
    var results := FieldResults(tokens, FieldCount);
    assert forall k | 0 <= k < FieldCount :: results[k] == Ok(values[k]);
    CollectOk(results);
    assert Collect(results).value == values;
    assert FieldLists(values, CommandAt(tokens, |tokens|)) == values + [[tokens[FieldCount]]];
  }

  /** Fields are parsed left to right and the first one that fails aborts the
      parse with its error, whatever follows it, a seventh token included. */
  lemma ParseCronFirstError(cronCommand: string, k: nat)
    requires var tokens := Split(cronCommand, ' ');
      && k < FieldCount && k < |tokens|
      && (forall j | 0 <= j < k :: ExpandToken(tokens[j], Field(j)).Ok?)
      && ExpandToken(tokens[k], Field(k)).Err?
    ensures var tokens := Split(cronCommand, ' ');
      ParseCron(cronCommand) == Err(ExpandToken(tokens[k], Field(k)).error)
  {
    var tokens := Split(cronCommand, ' ');
    var results := FieldResults(tokens, Min(|tokens|, FieldCount));
    assert forall j | 0 <= j <= k :: results[j] == ExpandToken(tokens[j], Field(j));
    CollectFirstError(results, k);
  }

  /** A seventh token fails on the lookup of position 6, which has no name, once
      the five time fields have expanded. */
  lemma ParseCronTooManyTokens(cronCommand: string)
    requires var tokens := Split(cronCommand, ' ');
      && |tokens| > |CronPositionConfig|
      && forall k | 0 <= k < FieldCount :: ExpandToken(tokens[k], Field(k)).Ok?
    ensures ParseCron(cronCommand) == Err(NoSuchPosition(|CronPositionConfig|))
  {
    var tokens := Split(cronCommand, ' ');
    var results := FieldResults(tokens, FieldCount);
    CollectOk(results);
    assert forall k | 0 <= k < FieldCount :: results[k] == ExpandToken(tokens[k], Field(k));
  }

  /** `parse_cron_command`: fills the six lists of the output dictionary token by
      token, stopping at the first error. */
  method ParseCronCommand(cronCommand: string) returns (r: Result<seq<Row>>)
    ensures r == ParseCron(cronCommand)
  {
    var outputDict: seq<seq<string>> := [[], [], [], [], [], []];
    var cronList := Split(cronCommand, ' ');
    assert outputDict == FieldLists([], []);
    for idx := 0 to |cronList|
      invariant ParsePrefix(cronList, idx) == Ok(outputDict)
    {
      if idx >= |CronPositionConfig| {
        // `CRON_POSITION_CONFIG[idx]` raises `KeyError`
        r := Err(NoSuchPosition(idx));
      } else {
        var currentCronValue := CronPositionConfig[idx];
        if currentCronValue == "command" {
          outputDict := outputDict[idx := outputDict[idx] + [cronList[idx]]];
          continue;
        }
        CommandPosition(idx);
        var fieldValues := ExpandField(cronList[idx], Field(idx));
        if fieldValues.Ok? {
          outputDict := outputDict[idx := fieldValues.value];
          continue;
        }
        r := Err(fieldValues.error);
      }
      assert ParsePrefix(cronList, idx + 1) == Err(r.error);
      ParsePrefixStaysErr(cronList, idx + 1, |cronList|);
      ParsePrefixMatches(cronList, |cronList|);
      return;
    }
    ParsePrefixMatches(cronList, |cronList|);
    return Ok(Table(outputDict));
  }
}
