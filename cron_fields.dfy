/** The field classifier and expander: the helper predicates of the parser and
    the body of its per-field loop. */
module CronFields {
  import opened Text
  import opened CronConfig

  /** `is_asterisk`: the token is exactly `*`, which allows every value. */
  predicate IsAsterisk(value: string)
    ensures IsAsterisk(value) ==> !IsDigits(value) && '-' !in value && ',' !in value
  {
    |value| == 1 && value[0] == '*'
  }

  /** `is_single_number`: `int()` accepts the token. */
  predicate IsSingleNumber(value: string)
    ensures IsSingleNumber(value) <==> IsDigits(value)
  {
    ParseInt(value).Some?
  }

  /** `is_dash_range`: `None` for a token without `-`; otherwise the token must
      be two numbers around one `-`, the first not above the second. */
  function IsDashRange(value: string): (r: Result<Option<(nat, nat)>>)
    ensures r == Ok(None) <==> '-' !in value
    ensures r.Ok? && r.value.Some? ==> r.value.value.0 <= r.value.value.1
  {
    if '-' in value then
      var parts := Split(value, '-');
      if |parts| != 2 then Err(TooManyValuesToUnpack)
      else
        var start :- IntOf(parts[0]);
        var end :- IntOf(parts[1]);
        if start <= end then Ok(Some((start, end))) else Err(InvalidRangeValues)
    else
      Ok(None)
  }

  /** A token that passes the dash check as a range is made of digits and one
      `-`, so it is no wildcard, number, interval or list. */
  lemma DashTokenShape(token: string)
    ensures IsDashRange(token).Ok? && IsDashRange(token).value.Some? ==>
      && ',' !in token && !StartsWithStep(token)
      && !IsAsterisk(token) && !IsSingleNumber(token)
  {
    if IsDashRange(token).Ok? && IsDashRange(token).value.Some? {
      var parts := Split(token, '-');
      JoinSplit(token, '-');
      assert token == parts[0] + "-" + parts[1];
      DigitsExclude(parts[0], ',');
      DigitsExclude(parts[1], ',');
      JoinChars(parts, '-', ',');
      assert token[0] == parts[0][0];
    }
  }

  predicate StartsWithStep(value: string) {
    |value| >= 2 && value[..2] == "*/"
  }

  // `is_interval`: for a token starting with `*/`, the number after its last
  // `/`; `None` for any other token.
  function IsInterval(value: string): (r: Result<Option<nat>>)
    ensures r == Ok(None) <==> !StartsWithStep(value)
  {
    if StartsWithStep(value) then
      var intervalList := Split(value, '/');
      var interval :- IntOf(intervalList[|intervalList| - 1]);
      Ok(Some(interval))
    else
      Ok(None)
  }

  /** `is_comma_range`: the pieces between commas, for a token holding one. */
  function IsCommaRange(value: string): (r: Option<seq<string>>)
    ensures r.Some? ==> |r.value| >= 2
  {
    if ',' in value then Some(Split(value, ',')) else None
  }

  /** `is_outside_allowed_range`: the value is not between the bounds, both
      included. */
  predicate IsOutsideAllowedRange(value: int, min: int, max: int)
    ensures !IsOutsideAllowedRange(value, min, max) <==> min <= value <= max
  {
    value < min || value > max
  }

  /** The choice of branch in the per-field loop. The dash and interval checks
      run first, for every token, and their errors win over everything else;
      then the branches are tried in the order of the source. */
  function Classify(token: string, field: FieldSpec): (r: Result<Form>)
    ensures r.Ok? ==> ValidForm(r.value)
    ensures r.Ok? && '-' in token ==> r.value.Range?
  {
    var dash :- IsDashRange(token);
    DashTokenShape(token);
    var commaRangeList := IsCommaRange(token);
    var interval :- IsInterval(token);
    if IsAsterisk(token) then Ok(Wildcard)
    else if IsSingleNumber(token) then Ok(Single(token, ParseInt(token).value))
    // an interval of 0 is falsy and does not take this branch
    else if interval.Some? && interval.value != 0 then Ok(Interval(interval.value))
    // the guard reads the end of the range for truthiness, so `0-0` does not take it
    else if dash.Some? && dash.value.1 != 0 then Ok(Range(dash.value.0, dash.value.1))
    else if commaRangeList.Some? then Ok(List(commaRangeList.value))
    else Err(InvalidFormat(field.name))
  }

  /** `range(start, stop, step)` for a positive step: values from `start`
      upwards, all below `stop`, empty when `start` is not below `stop`. */
  function PyRange(start: nat, stop: int, step: nat): seq<nat>
    requires step > 0
    decreases stop - start
  {
    if start >= stop then [] else [start] + PyRange(start + step, stop, step)
  }

  /** `str()` of each number, in order. */
  function Render(xs: seq<nat>): (r: seq<string>)
    ensures |r| == |xs|
    ensures forall k | 0 <= k < |xs| :: r[k] == NatToString(xs[k])
  {
    if xs == [] then [] else [NatToString(xs[0])] + Render(xs[1..])
  }

  /** Why a list element is refused, if it is. */
  function ItemError(item: string, field: FieldSpec): Option<CronError> {
    match ParseInt(item)
    case None => Some(NotAnInteger(item))
    case Some(n) =>
      if IsOutsideAllowedRange(n, field.min, field.max) then Some(OutsideAllowedRange(field.name))
      else None
  }

  /** The error of the first refused list element, scanning left to right. */
  function FirstItemError(items: seq<string>, field: FieldSpec): (r: Option<CronError>)
    ensures r.Some? ==> r.value == OutsideAllowedRange(field.name) || r.value.NotAnInteger?
  {
    if items == [] then None
    else if ItemError(items[0], field).Some? then ItemError(items[0], field)
    else FirstItemError(items[1..], field)
  }

  /** The bounds check and expansion of a classified token. */
  function Expand(form: Form, field: FieldSpec): Result<seq<string>>
    requires ValidForm(form)
  {
    match form
    case Wildcard => Ok(Render(PyRange(field.min, field.max + 1, 1)))
    case Single(text, n) =>
      if IsOutsideAllowedRange(n, field.min, field.max) then Err(OutsideAllowedRange(field.name))
      else Ok([text])
    case Interval(step) => Ok(Render(PyRange(field.min, field.max, step)))
    case Range(start, end) =>
      if IsOutsideAllowedRange(start, field.min, field.max) then Err(StartOutsideAllowedRange(field.name))
      else if IsOutsideAllowedRange(end, field.min, field.max) then Err(EndOutsideAllowedRange(field.name))
      else Ok(Render(PyRange(start, end + 1, 1)))
    case List(items) =>
      match FirstItemError(items, field)
      case Some(e) => Err(e)
      case None => Ok(items)
  }

  /** The token classified, then its form bounds-checked and expanded: a
      second reading of the per-field loop, by the form of the token. */
  function ExpandByForm(token: string, field: FieldSpec): Result<seq<string>> {
    var form :- Classify(token, field);
    Expand(form, field)
  }

  /** `for i in range(start, stop, step): values.append(str(i))`. */
  method AppendRange(values: seq<string>, start: nat, stop: int, step: nat) returns (r: seq<string>)
    requires step > 0
    ensures r == values + Render(PyRange(start, stop, step))
  {
    r := values;
    var i := start;
    while i < stop
      invariant start <= i
      invariant r + Render(PyRange(i, stop, step)) == values + Render(PyRange(start, stop, step))
      decreases stop - i
    {
      r := r + [NatToString(i)];
      i := i + step;
    }
  }

  /** `for i in comma_range_list: ...values.append(str(i))`: each element is
      parsed and bounds-checked in turn, and appended as written. */
  method AppendItems(values: seq<string>, items: seq<string>, field: FieldSpec) returns (r: Result<seq<string>>)
    ensures r == match FirstItemError(items, field)
                 case Some(e) => Err(e)
                 case None => Ok(values + items)
  {
    var out := values;
    for j := 0 to |items|
      invariant out == values + items[..j]
      invariant FirstItemError(items, field) == FirstItemError(items[j..], field)
    {
      var n :- IntOf(items[j]);
      if IsOutsideAllowedRange(n, field.min, field.max) {
        return Err(OutsideAllowedRange(field.name));
      }
      assert items[j..][1..] == items[j + 1..];
      assert items[..j + 1] == items[..j] + [items[j]];
      out := out + [items[j]];
    }
    assert items[..|items|] == items && items[|items|..] == [];
    return Ok(out);
  }

  /** `*` expands to `range(min, max + 1)`, rendered. */
  lemma WildcardToken(field: FieldSpec)
    ensures ExpandToken("*", field) == Ok(Render(PyRange(field.min, field.max + 1, 1)))
  {
    assert Split("*", '/') == ["*"];
  }

  /** Appending to an empty list gives the appended elements. */
  lemma EmptyAppend<T>(s: seq<T>)
    ensures [] + s == s
  {
  }

  /** What one field token expands to: the values the per-field loop of
      `parse_cron_command` appends to the field's list, or the error it raises.
      Branch by branch as written there: the dash, comma and interval checks run
      first, then the first branch whose guard holds decides. */
  function ExpandToken(token: string, field: FieldSpec): (r: Result<seq<string>>)
    ensures r.Err? ==> IsValueError(r.error)
    ensures r.Err? && NamesField(r.error) ==> r.error.field == field.name
  {
    var dash :- IsDashRange(token);
    var commaRangeList := IsCommaRange(token);
    var interval :- IsInterval(token);
    if IsAsterisk(token) then Ok(Render(PyRange(field.min, field.max + 1, 1)))
    else if IsSingleNumber(token) then
      if IsOutsideAllowedRange(ParseInt(token).value, field.min, field.max) then
        Err(OutsideAllowedRange(field.name))
      else Ok([token])
    else if interval.Some? && interval.value != 0 then Ok(Render(PyRange(field.min, field.max, interval.value)))
    else if dash.Some? && dash.value.1 != 0 then
      var (start, end) := dash.value;
      if IsOutsideAllowedRange(start, field.min, field.max) then Err(StartOutsideAllowedRange(field.name))
      else if IsOutsideAllowedRange(end, field.min, field.max) then Err(EndOutsideAllowedRange(field.name))
      else Ok(Render(PyRange(start, end + 1, 1)))
    else if commaRangeList.Some? then
      match FirstItemError(commaRangeList.value, field)
      case Some(e) => Err(e)
      case None => Ok(commaRangeList.value)
    else Err(InvalidFormat(field.name))
  }

  /** The body of the per-field loop of `parse_cron_command` for a token of the
      given field: the values appended to the field's (empty) list, or the error
      raised. */
  method ExpandField(cronValue: string, field: FieldSpec) returns (r: Result<seq<string>>)
    ensures r == ExpandToken(cronValue, field)
  {
    var minValue, maxValue := field.min, field.max;
    var dash :- IsDashRange(cronValue);
    var commaRangeList := IsCommaRange(cronValue);
    var intervalValue :- IsInterval(cronValue);
    var values: seq<string> := [];
    if IsAsterisk(cronValue) {
      values := AppendRange(values, minValue, maxValue + 1, 1);
      EmptyAppend(Render(PyRange(minValue, maxValue + 1, 1)));
      return Ok(values);
    } else if IsSingleNumber(cronValue) {
      if IsOutsideAllowedRange(ParseInt(cronValue).value, minValue, maxValue) {
        return Err(OutsideAllowedRange(field.name));
      }
      values := values + [cronValue];
      EmptyAppend([cronValue]);
      return Ok(values);
    } else if intervalValue.Some? && intervalValue.value != 0 {
      values := AppendRange(values, minValue, maxValue, intervalValue.value);
      EmptyAppend(Render(PyRange(minValue, maxValue, intervalValue.value)));
      return Ok(values);
    } else if dash.Some? && dash.value.1 != 0 {
      var (start, end) := dash.value;
      if IsOutsideAllowedRange(start, minValue, maxValue) {
        return Err(StartOutsideAllowedRange(field.name));
      }
      if IsOutsideAllowedRange(end, minValue, maxValue) {
        return Err(EndOutsideAllowedRange(field.name));
      }
      values := AppendRange(values, start, end + 1, 1);
      EmptyAppend(Render(PyRange(start, end + 1, 1)));
      return Ok(values);
    } else if commaRangeList.Some? {
      EmptyAppend(commaRangeList.value);
      r := AppendItems(values, commaRangeList.value, field);
      return;
    } else {
      return Err(InvalidFormat(field.name));
    }
  }

  // The loop body agrees with classifying the token and then expanding its
  // form, branch by branch: the errors of the dash and interval checks come
  // first, then each branch applies once the earlier ones did not.
  lemma CheckErrors(token: string, field: FieldSpec)
    ensures IsDashRange(token).Err? ==> ExpandByForm(token, field) == Err(IsDashRange(token).error)
    ensures IsDashRange(token).Ok? && IsInterval(token).Err? ==>
      ExpandByForm(token, field) == Err(IsInterval(token).error)
  {
  }

  lemma WildcardBranch(token: string, field: FieldSpec)
    requires IsAsterisk(token)
    ensures ExpandByForm(token, field) == ExpandToken(token, field)
  {
  }

  lemma SingleBranch(token: string, field: FieldSpec)
    requires IsSingleNumber(token)
    ensures ExpandByForm(token, field) == ExpandToken(token, field)
  {
  }

  lemma IntervalBranch(token: string, field: FieldSpec, step: nat)
    requires IsDashRange(token).Ok? && IsInterval(token) == Ok(Some(step)) && step != 0
    ensures ExpandByForm(token, field) == ExpandToken(token, field)
  {
  }

  lemma RangeBranch(token: string, field: FieldSpec, start: nat, end: nat)
    requires IsDashRange(token) == Ok(Some((start, end))) && end != 0
    ensures ExpandByForm(token, field) == ExpandToken(token, field)
  {
  }

  lemma ListBranch(token: string, field: FieldSpec)
    requires IsDashRange(token).Ok? && IsInterval(token).Ok?
    requires !IsAsterisk(token) && !IsSingleNumber(token)
    requires IsInterval(token).value.Some? ==> IsInterval(token).value.value == 0
    requires IsDashRange(token).value.Some? ==> IsDashRange(token).value.value.1 == 0
    ensures ExpandByForm(token, field) == ExpandToken(token, field)
  {
  }

  /** The loop body is the classification of the token followed by the bounds
      check and expansion of its form. */
  lemma ExpandTokenByForm(token: string, field: FieldSpec)
    ensures ExpandToken(token, field) == ExpandByForm(token, field)
  {
  }

  /** `range(start, stop, step)` is `start, start + step, ...` up to but
      excluding `stop`, and stops at the first value that is not below `stop`. */
  lemma {:induction false} PyRangeSpec(start: nat, stop: int, step: nat)
    requires step > 0
    ensures var r := PyRange(start, stop, step);
      && (forall k | 0 <= k < |r| :: r[k] == start + k * step && r[k] < stop)
      && start + |r| * step >= stop
    decreases stop - start
  {
    if start < stop {
      var rest := PyRange(start + step, stop, step);
      PyRangeSpec(start + step, stop, step);
      forall k | 1 <= k <= |rest|
        ensures start + step + (k - 1) * step == start + k * step
      {
      }
      assert start + step + |rest| * step == start + (|rest| + 1) * step;
    }
  }

  /** With step 1, `range(start, stop)` is the `stop - start` consecutive
      integers from `start`. */
  lemma PyRangeConsecutive(start: nat, stop: int)
    requires start <= stop
    ensures |PyRange(start, stop, 1)| == stop - start
    ensures forall k | 0 <= k < stop - start :: PyRange(start, stop, 1)[k] == start + k
  {
    var r := PyRange(start, stop, 1);
    PyRangeSpec(start, stop, 1);
    if |r| > 0 {
      assert r[|r| - 1] == start + |r| - 1;
    }
  }

  /** Consecutive values split at any point between their ends. */
  lemma {:induction false} PyRangeSplit(start: nat, mid: nat, stop: nat)
    requires start <= mid <= stop
    ensures PyRange(start, stop, 1) == PyRange(start, mid, 1) + PyRange(mid, stop, 1)
    decreases mid - start
  {
    if start < mid {
      PyRangeSplit(start + 1, mid, stop);
    }
  }

  /** Rendering a concatenation renders each part. */
  lemma RenderAppend(xs: seq<nat>, ys: seq<nat>)
    ensures Render(xs + ys) == Render(xs) + Render(ys)
  {
  }

  /** `vs` is the text of `count` consecutive numbers from `start`, ascending. */
  predicate CountsUpFrom(vs: seq<string>, start: nat, count: int) {
    |vs| == count && forall k | 0 <= k < |vs| :: vs[k] == NatToString(start + k)
  }

  /** `vs` is the text of `start, start + n, start + 2n, ...`, each below `stop`,
      with the next one in the progression not below it. */
  predicate StepsUpTo(vs: seq<string>, start: nat, stop: int, n: nat) {
    && (forall k | 0 <= k < |vs| :: vs[k] == NatToString(start + k * n) && start + k * n < stop)
    && start + |vs| * n >= stop
  }

  /** `*` yields every value of the field from its minimum to its maximum,
      ascending, as decimal text: `max - min + 1` values. */
  lemma WildcardExpansion(field: FieldSpec)
    requires field.min <= field.max
    ensures ExpandToken("*", field).Ok?
    ensures CountsUpFrom(ExpandToken("*", field).value, field.min, field.max - field.min + 1)
  {
    WildcardToken(field);
    RenderedConsecutive(field.min, field.max + 1);
  }

  /** `range(start, stop)` rendered: `stop - start` values, the text of
      `start + k` at each position `k`. */
  lemma RenderedConsecutive(start: nat, stop: int)
    requires start <= stop
    ensures CountsUpFrom(Render(PyRange(start, stop, 1)), start, stop - start)
  {
    PyRangeConsecutive(start, stop);
  }

  // A step token without `-` or `,` whose number after the last `/` is `v`:
  // an interval of `v`, except that an interval of 0 is falsy and ends in the
  // error for an unrecognised token.
  lemma StepTokenValue(token: string, v: nat, field: FieldSpec)
    requires '-' !in token && ',' !in token && StartsWithStep(token)
    requires IsInterval(token) == Ok(Some(v))
    ensures ExpandToken(token, field) ==
      if v != 0 then Ok(Render(PyRange(field.min, field.max, v))) else Err(InvalidFormat(field.name))
  {
    assert token[0] == token[..2][0] == '*';
    assert !IsDigit(token[0]);
  }

  // The token `*/s` with `s` a number: a step token whose interval is `s`.
  lemma StepShape(s: string)
    requires IsDigits(s)
    ensures var token := "*/" + s;
      && '-' !in token && ',' !in token && StartsWithStep(token)
      && IsInterval(token) == Ok(Some(DigitsValue(s)))
  {
    var token := "*/" + s;
    DigitsExclude(s, '-');
    DigitsExclude(s, ',');
    DigitsExclude(s, '/');
    assert '-' !in token && ',' !in token;
    assert Join(["*", s], '/') == token;
    SplitJoin(["*", s], '/');
    assert token[..2] == "*/";
  }

  // `*/N` expands to `range(min, max, N)`, rendered, for N > 0; `*/0` is an
  // unrecognised token.
  lemma StepToken(s: string, field: FieldSpec)
    requires IsDigits(s)
    ensures ExpandToken("*/" + s, field) ==
      if DigitsValue(s) != 0 then Ok(Render(PyRange(field.min, field.max, DigitsValue(s))))
      else Err(InvalidFormat(field.name))
  {
    StepShape(s);
    StepTokenValue("*/" + s, DigitsValue(s), field);
  }

  // `*/N` with N > 0 yields `min, min + N, min + 2N, ...` for as long as the
  // value stays strictly below the field's maximum: the maximum itself is never
  // produced, and no value below it in that progression is missed.
  lemma IntervalExpansion(s: string, field: FieldSpec)
    requires IsDigits(s) && DigitsValue(s) > 0
    ensures ExpandToken("*/" + s, field).Ok?
    ensures StepsUpTo(ExpandToken("*/" + s, field).value, field.min, field.max, DigitsValue(s))
  {
    StepToken(s, field);
    RenderedProgression(field.min, field.max, DigitsValue(s));
  }

  /** `range(start, stop, n)` rendered: the text of `start + k * n` at each
      position `k`, every value below `stop`, and the next one not. */
  lemma RenderedProgression(start: nat, stop: int, n: nat)
    requires n > 0
    ensures StepsUpTo(Render(PyRange(start, stop, n)), start, stop, n)
  {
    PyRangeSpec(start, stop, n);
  }

  // The pieces of `*/s/t` between slashes.
  lemma StepPieces(s: string, t: string)
    requires IsDigits(s) && IsDigits(t)
    ensures var token := "*/" + s + "/" + t;
      && '-' !in token && ',' !in token && StartsWithStep(token)
      && Split(token, '/') == ["*", s, t]
  {
    var token := "*/" + s + "/" + t;
    DigitsExclude(s, '-');
    DigitsExclude(s, ',');
    DigitsExclude(s, '/');
    DigitsExclude(t, '-');
    DigitsExclude(t, ',');
    DigitsExclude(t, '/');
    assert '-' !in token && ',' !in token;
    JoinCons("*", [s, t], '/');
    assert ["*"] + [s, t] == ["*", s, t];
    assert Join(["*", s, t], '/') == token;
    SplitJoin(["*", s, t], '/');
    assert token[..2] == "*/";
  }

  // Only the number after the last `/` counts: `*/s/t` is read as `*/t`.
  lemma StepTakesLastPiece(s: string, t: string, field: FieldSpec)
    requires IsDigits(s) && IsDigits(t)
    ensures ExpandToken("*/" + s + "/" + t, field) == ExpandToken("*/" + t, field)
  {
    var token := "*/" + s + "/" + t;
    StepPieces(s, t);
    assert IsInterval(token) == Ok(Some(DigitsValue(t)));
    StepTokenValue(token, DigitsValue(t), field);
    StepToken(t, field);
  }

  /** A number is kept as written when it lies within the bounds, and raises the
      field's out-of-range error otherwise. */
  lemma SingleNumberExpansion(s: string, field: FieldSpec)
    requires IsDigits(s)
    ensures ExpandToken(s, field) ==
      if field.min <= DigitsValue(s) <= field.max then Ok([s])
      else Err(OutsideAllowedRange(field.name))
  {
    DigitsExclude(s, '-');
    DigitsExclude(s, ',');
    assert !StartsWithStep(s) by {
      if |s| >= 2 {
        assert s[..2][0] == s[0];
      }
    }
  }

  /** Every token holding a `-` goes through the dash check first, whatever
      branch would apply to it later: it must be exactly two numbers with the
      first not above the second, or the token fails with the dash check's error. */
  lemma DashTokenErrors(token: string, field: FieldSpec)
    requires '-' in token
    ensures var parts := Split(token, '-'); var r := ExpandToken(token, field);
      && (|parts| != 2 ==> r == Err(TooManyValuesToUnpack))
      && (|parts| == 2 && !IsDigits(parts[0]) ==> r == Err(NotAnInteger(parts[0])))
      && (|parts| == 2 && IsDigits(parts[0]) && !IsDigits(parts[1]) ==> r == Err(NotAnInteger(parts[1])))
      && ((|parts| == 2 && IsDigits(parts[0]) && IsDigits(parts[1]) &&
           DigitsValue(parts[0]) > DigitsValue(parts[1])) ==> r == Err(InvalidRangeValues))
  {
  }

  /** The tokens `A-B` that pass the dash check: two numbers around one `-`. */
  lemma DashRangeOfNumbers(a: string, b: string)
    requires IsDigits(a) && IsDigits(b)
    ensures Split(a + "-" + b, '-') == [a, b]
    ensures IsDashRange(a + "-" + b) ==
      if DigitsValue(a) <= DigitsValue(b) then Ok(Some((DigitsValue(a), DigitsValue(b))))
      else Err(InvalidRangeValues)
  {
    DigitsExclude(a, '-');
    DigitsExclude(b, '-');
    assert Join([a, b], '-') == a + "-" + b;
    SplitJoin([a, b], '-');
    assert (a + "-" + b)[|a|] == '-';
  }

  /** What a range from `start` to `end` promises: the start bound is checked
      before the end bound, and a range within both yields the
      `end - start + 1` consecutive values from `start`, ascending, as decimal
      text. */
  predicate RangeOutcome(r: Result<seq<string>>, start: nat, end: nat, field: FieldSpec) {
    && (start < field.min || start > field.max ==> r == Err(StartOutsideAllowedRange(field.name)))
    && (field.min <= start <= field.max && (end < field.min || end > field.max) ==>
          r == Err(EndOutsideAllowedRange(field.name)))
    && (field.min <= start && end <= field.max ==>
          r.Ok? && CountsUpFrom(r.value, start, end - start + 1))
  }

  /** The range form from `start` to `end` (`start <= end`) keeps that promise. */
  lemma RangeExpansion(start: nat, end: nat, field: FieldSpec)
    requires start <= end && end > 0
    ensures RangeOutcome(Expand(Range(start, end), field), start, end, field)
  {
    RenderedConsecutive(start, end + 1);
  }

  /** How a token `A-B` of two numbers with A <= B is classified: as a range,
      unless its end is 0. */
  lemma ClassifyRange(a: string, b: string, field: FieldSpec)
    requires IsDigits(a) && IsDigits(b) && DigitsValue(a) <= DigitsValue(b)
    ensures DigitsValue(b) != 0 ==>
      Classify(a + "-" + b, field) == Ok(Range(DigitsValue(a), DigitsValue(b)))
    ensures DigitsValue(b) == 0 ==> Classify(a + "-" + b, field) == Err(InvalidFormat(field.name))
  {
    DashRangeOfNumbers(a, b);
    DashTokenShape(a + "-" + b);
  }

  /** A token `A-B` of two numbers with A <= B and B > 0, end to end: the start
      bound is checked before the end bound, and a range within both yields the
      `B - A + 1` consecutive values from A, ascending, as decimal text. */
  lemma RangeTokenExpansion(a: string, b: string, field: FieldSpec)
    requires IsDigits(a) && IsDigits(b)
    requires DigitsValue(a) <= DigitsValue(b) && DigitsValue(b) > 0
    ensures RangeOutcome(ExpandToken(a + "-" + b, field), DigitsValue(a), DigitsValue(b), field)
  {
    RangeToken(a, b, field);
    RangeExpansion(DigitsValue(a), DigitsValue(b), field);
  }

  /** A token `A-B` of two numbers with A <= B and B > 0 is read as the range
      form from A to B. */
  lemma RangeToken(a: string, b: string, field: FieldSpec)
    requires IsDigits(a) && IsDigits(b)
    requires DigitsValue(a) <= DigitsValue(b) && DigitsValue(b) > 0
    ensures ExpandToken(a + "-" + b, field) == Expand(Range(DigitsValue(a), DigitsValue(b)), field)
  {
    DashRangeOfNumbers(a, b);
    DashBranch(a + "-" + b, field, DigitsValue(a), DigitsValue(b));
  }

  /** A token that passes the dash check as a range with a non-zero end takes
      the range branch. */
  lemma DashBranch(token: string, field: FieldSpec, start: nat, end: nat)
    requires IsDashRange(token) == Ok(Some((start, end))) && end != 0
    ensures ExpandToken(token, field) == Expand(Range(start, end), field)
  {
    DashTokenShape(token);
  }

  /** `0-0` passes the dash check but not the range branch, whose guard tests the
      end value for truthiness: it ends in the error for an unrecognised token. */
  lemma ZeroRangeIsInvalidFormat(a: string, b: string, field: FieldSpec)
    requires IsDigits(a) && IsDigits(b) && DigitsValue(a) == 0 && DigitsValue(b) == 0
    ensures ExpandToken(a + "-" + b, field) == Err(InvalidFormat(field.name))
  {
    ClassifyRange(a, b, field);
  }

  /** The first refused element decides the error of a list: the elements before
      it are all accepted, and a list with no refused element is accepted. */
  lemma {:induction false} FirstItemErrorIsFirst(items: seq<string>, field: FieldSpec)
    ensures FirstItemError(items, field).None? <==>
      forall k | 0 <= k < |items| :: ItemError(items[k], field).None?
    ensures FirstItemError(items, field).Some? ==>
      exists k | 0 <= k < |items| ::
        && ItemError(items[k], field) == FirstItemError(items, field)
        && forall j | 0 <= j < k :: ItemError(items[j], field).None?
  {
    if items != [] && ItemError(items[0], field).None? {
      FirstItemErrorIsFirst(items[1..], field);
      if FirstItemError(items, field).Some? {
        var k :| 0 <= k < |items[1..]| &&
          ItemError(items[1..][k], field) == FirstItemError(items[1..], field) &&
          forall j | 0 <= j < k :: ItemError(items[1..][j], field).None?;
        assert ItemError(items[k + 1], field) == FirstItemError(items, field);
      }
    }
  }

  // `A,B,C` (no `-` in it, not starting `*/`): the elements are checked left to
  // right and the first refused one raises its error; otherwise the result is
  // the elements themselves, as written, in input order, duplicates kept.
  lemma CommaListExpansion(items: seq<string>, field: FieldSpec)
    requires |items| >= 2
    requires forall k | 0 <= k < |items| :: ',' !in items[k] && '-' !in items[k]
    requires !StartsWithStep(Join(items, ','))
    ensures ExpandToken(Join(items, ','), field) ==
      match FirstItemError(items, field)
      case Some(e) => Err(e)
      case None => Ok(items)
  {
    var token := Join(items, ',');
    JoinChars(items, ',', '-');
    SplitJoin(items, ',');
    assert ',' in token by {
      JoinCons(items[0], items[1..], ',');
      assert [items[0]] + items[1..] == items;
      assert token[|items[0]|] == ',';
    }
    assert !IsDigits(token) && token != "*" by {
      if IsDigits(token) {
        DigitsExclude(token, ',');
      }
    }
    assert Classify(token, field) == Ok(List(items));
  }

  /** A token of no recognised form raises the field's format error. */
  lemma UnrecognisedToken(token: string, field: FieldSpec)
    requires '-' !in token && ',' !in token && !StartsWithStep(token)
    requires token != "*" && !IsDigits(token)
    ensures ExpandToken(token, field) == Err(InvalidFormat(field.name))
  {
  }

  /** `v` is the text of a number between the field's bounds, both included. */
  predicate WithinField(v: string, field: FieldSpec) {
    ParseInt(v).Some? && field.min <= ParseInt(v).value <= field.max
  }

  /** Whatever the form of the token, every value it expands to reads as a
      number between the field's bounds. */
  lemma ExpandTokenWithinBounds(token: string, field: FieldSpec)
    requires ExpandToken(token, field).Ok?
    ensures forall k | 0 <= k < |ExpandToken(token, field).value| ::
      WithinField(ExpandToken(token, field).value[k], field)
  {
    var dash, interval := IsDashRange(token).value, IsInterval(token).value;
    if IsAsterisk(token) {
      RenderedWithin(field.min, field.max + 1, 1, field);
    } else if IsSingleNumber(token) {
      assert ExpandToken(token, field).value == [token];
    } else if interval.Some? && interval.value != 0 {
      RenderedWithin(field.min, field.max, interval.value, field);
    } else if dash.Some? && dash.value.1 != 0 {
      RenderedWithin(dash.value.0, dash.value.1 + 1, 1, field);
    } else {
      ItemsWithin(IsCommaRange(token).value, field);
    }
  }

  /** A range that starts at or above the minimum and stops at most one past
      the maximum renders as numbers within the field's bounds. */
  lemma RenderedWithin(start: nat, stop: int, step: nat, field: FieldSpec)
    requires step > 0 && field.min <= start && stop <= field.max + 1
    ensures forall k | 0 <= k < |Render(PyRange(start, stop, step))| ::
      WithinField(Render(PyRange(start, stop, step))[k], field)
  {
    var xs := PyRange(start, stop, step);
    PyRangeBounds(start, stop, step);
    forall k | 0 <= k < |xs|
      ensures WithinField(Render(xs)[k], field)
    {
      ParseNatToString(xs[k]);
    }
  }

  /** Every value of `range(start, stop, step)` lies from `start` up to, but
      not including, `stop`. */
  lemma {:induction false} PyRangeBounds(start: nat, stop: int, step: nat)
    requires step > 0
    ensures forall k | 0 <= k < |PyRange(start, stop, step)| :: start <= PyRange(start, stop, step)[k] < stop
    decreases stop - start
  {
    if start < stop {
      PyRangeBounds(start + step, stop, step);
    }
  }

  /** A list that no element refuses holds only numbers within the bounds. */
  lemma ItemsWithin(items: seq<string>, field: FieldSpec)
    requires FirstItemError(items, field).None?
    ensures forall k | 0 <= k < |items| :: WithinField(items[k], field)
  {
    FirstItemErrorIsFirst(items, field);
  }
}
