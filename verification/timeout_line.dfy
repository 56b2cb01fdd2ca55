/**
 * The timeout reconfiguration line: a line of comma-separated decimal
 * values typed on the serial link. Splitting follows strtok with "," as the
 * only delimiter (empty fields vanish), numbers follow atoi (leading
 * white space, an optional sign, then digits up to the first non-digit; no
 * digits reads as 0). A line is accepted when it holds exactly six fields
 * and each reads as a value in [1, 9998].
 */
module TimeoutLine {
  import opened Wrappers

  const NEW_TIMEOUT_LENGTH: int := 40
  const NUMBER_OF_TIMEOUT_VALUES: int := 6
  const DEFAULT_TIMEOUTS: seq<int> := [500, 6000, 2000, 500, 6000, 2000]

  predicate IsTerminator(c: char)
  {
    c == '\r' || c == '\n'
  }

  predicate IsValidTimeout(v: int)
  {
    0 < v < 9999
  }

  // ---- strtok(line, ",") ----

  /** The first position at or after `i` that is not a comma. */
  function SkipDelims(s: seq<char>, i: nat): (j: nat)
    requires i <= |s|
    ensures i <= j <= |s|
    ensures j < |s| ==> s[j] != ','
    decreases |s| - i
  {
    if i < |s| && s[i] == ',' then SkipDelims(s, i + 1) else i
  }

  /** The first comma at or after `i`, or the end of the line. */
  function TokenEnd(s: seq<char>, i: nat): (j: nat)
    requires i <= |s|
    ensures i <= j <= |s|
    ensures j < |s| ==> s[j] == ','
    decreases |s| - i
  {
    if i < |s| && s[i] != ',' then TokenEnd(s, i + 1) else i
  }

  /** Only commas are skipped in front of a field. */
  lemma {:induction false} SkipDelimsSkipsCommas(s: seq<char>, i: nat)
    requires i <= |s|
    ensures forall k | i <= k < SkipDelims(s, i) :: s[k] == ','
    decreases |s| - i
  {
    if i < |s| && s[i] == ',' {
      SkipDelimsSkipsCommas(s, i + 1);
    }
  }

  /** A field holds no comma. */
  lemma {:induction false} TokenEndSkipsField(s: seq<char>, i: nat)
    requires i <= |s|
    ensures forall k | i <= k < TokenEnd(s, i) :: s[k] != ','
    decreases |s| - i
  {
    if i < |s| && s[i] != ',' {
      TokenEndSkipsField(s, i + 1);
    }
  }

  /** A field ends at the first comma after it, or at the end of the line. */
  lemma {:induction false} TokenEndAt(s: seq<char>, i: nat, j: nat)
    requires i <= j <= |s|
    requires forall k | i <= k < j :: s[k] != ','
    requires j == |s| || s[j] == ','
    ensures TokenEnd(s, i) == j
    decreases j - i
  {
    if i < j {
      TokenEndAt(s, i + 1, j);
    }
  }

  /** A field strtok can return: non-empty and free of commas. */
  predicate WellFormedToken(t: seq<char>)
  {
    |t| > 0 && forall k | 0 <= k < |t| :: t[k] != ','
  }

  /** The fields strtok returns from position `i` on. */
  function TokensFrom(s: seq<char>, i: nat): seq<seq<char>>
    requires i <= |s|
    decreases |s| - i
  {
    var a := SkipDelims(s, i);
    if a == |s| then []
    else
      var b := TokenEnd(s, a);
      [s[a..b]] + TokensFrom(s, b)
  }

  /** Every field strtok returns is non-empty and free of commas. */
  lemma {:induction false} TokensAreWellFormed(s: seq<char>, i: nat)
    requires i <= |s|
    ensures forall k | 0 <= k < |TokensFrom(s, i)| :: WellFormedToken(TokensFrom(s, i)[k])
    decreases |s| - i
  {
    var a := SkipDelims(s, i);
    if a < |s| {
      var b := TokenEnd(s, a);
      TokenEndSkipsField(s, a);
      TokensAreWellFormed(s, b);
      assert TokensFrom(s, i) == [s[a..b]] + TokensFrom(s, b);
    }
  }

  /**
   * The C string a character buffer holds: everything before its first NUL,
   * or the whole buffer when it has none.
   */
  function CString(s: seq<char>): (c: seq<char>)
    ensures c <= s
    ensures '\0' !in c
    ensures |c| < |s| ==> s[|c|] == '\0'
  {
    if s == [] || s[0] == '\0' then [] else [s[0]] + CString(s[1..])
  }

  function Tokens(s: seq<char>): seq<seq<char>>
  {
    TokensFrom(s, 0)
  }

  /**
   * One call of strtok: the next field at or after `from`, as the slice
   * s[start..end], and where the following call resumes.
   */
  method Strtok(s: seq<char>, from: nat) returns (found: bool, start: nat, end: nat)
    requires from <= |s|
    ensures found <==> TokensFrom(s, from) != []
    ensures found ==> from <= start < end <= |s|
    ensures found ==> TokensFrom(s, from) == [s[start..end]] + TokensFrom(s, end)
  {
    start := from;
    while start < |s| && s[start] == ','
      invariant from <= start <= |s|
      invariant SkipDelims(s, start) == SkipDelims(s, from)
    {
      start := start + 1;
    }
    if start == |s| {
      return false, start, start;
    }
    end := start + 1;
    while end < |s| && s[end] != ','
      invariant start < end <= |s|
      invariant TokenEnd(s, end) == TokenEnd(s, start)
    {
      end := end + 1;
    }
    found := true;
  }

  // ---- atoi(field) ----

  /** White space as isspace sees it: blank, tab, newline, vertical tab, form feed, carriage return. */
  predicate IsSpace(c: char)
  {
    c == ' ' || '\t' <= c <= '\r'
  }

  predicate IsDigit(c: char)
  {
    '0' <= c <= '9'
  }

  predicate AllDigits(ds: seq<char>)
  {
    forall k | 0 <= k < |ds| :: IsDigit(ds[k])
  }

  function SkipSpaces(s: seq<char>, i: nat): (j: nat)
    requires i <= |s|
    ensures i <= j <= |s|
    ensures j < |s| ==> !IsSpace(s[j])
    decreases |s| - i
  {
    if i < |s| && IsSpace(s[i]) then SkipSpaces(s, i + 1) else i
  }

  function DigitsEnd(s: seq<char>, i: nat): (j: nat)
    requires i <= |s|
    ensures i <= j <= |s|
    ensures AllDigits(s[i..j])
    ensures j < |s| ==> !IsDigit(s[j])
    decreases |s| - i
  {
    if i < |s| && IsDigit(s[i]) then DigitsEnd(s, i + 1) else i
  }

  /** The value of a string of decimal digits, most significant first. */
  function Value(ds: seq<char>): nat
    requires AllDigits(ds)
  {
    if ds == [] then 0 else Value(ds[..|ds| - 1]) * 10 + (ds[|ds| - 1] as int - '0' as int)
  }

  function Atoi(s: seq<char>): int
  {
    var a := SkipSpaces(s, 0);
    if a < |s| && (s[a] == '-' || s[a] == '+') then
      var v: int := Value(s[a + 1..DigitsEnd(s, a + 1)]);
      if s[a] == '-' then -v else v
    else
      Value(s[a..DigitsEnd(s, a)])
  }

  // ---- the line ----

  /**
   * The new timeout table a line asks for: the six values in the order
   * given, or None when the line has more or fewer than six fields or a
   * field outside [1, 9998].
   */
  function Parse(line: seq<char>): (r: Option<seq<int>>)
    ensures r.Some? ==> |r.value| == NUMBER_OF_TIMEOUT_VALUES
    ensures r.Some? ==> forall i | 0 <= i < |r.value| :: IsValidTimeout(r.value[i])
  {
    var toks := Tokens(line);
    if |toks| == NUMBER_OF_TIMEOUT_VALUES && forall i | 0 <= i < |toks| :: IsValidTimeout(Atoi(toks[i]))
    then Some(seq(|toks|, i requires 0 <= i < |toks| => Atoi(toks[i])))
    else None
  }

  /** The six fields, read in order, are what Parse accepts; nothing else is. */
  lemma ParseMeaning(line: seq<char>)
    ensures Parse(line).Some? <==>
              |Tokens(line)| == NUMBER_OF_TIMEOUT_VALUES &&
              forall i | 0 <= i < |Tokens(line)| :: IsValidTimeout(Atoi(Tokens(line)[i]))
    ensures Parse(line).Some? ==>
              forall i | 0 <= i < |Tokens(line)| :: Parse(line).value[i] == Atoi(Tokens(line)[i])
  {
  }

  /** A seventh field rejects the line. */
  lemma TooManyFields(line: seq<char>)
    requires |Tokens(line)| > NUMBER_OF_TIMEOUT_VALUES
    ensures Parse(line) == None
  {
  }

  /** A field whose value is out of range rejects the line. */
  lemma InvalidField(line: seq<char>, k: nat)
    requires k < |Tokens(line)| && !IsValidTimeout(Atoi(Tokens(line)[k]))
    ensures Parse(line) == None
  {
  }

  /** When every field has been read and is in range, the line is accepted exactly when there are six. */
  lemma AllFieldsRead(line: seq<char>, values: seq<int>)
    requires |values| == |Tokens(line)|
    requires forall k | 0 <= k < |values| :: values[k] == Atoi(Tokens(line)[k]) && IsValidTimeout(values[k])
    ensures Parse(line) == if |values| == NUMBER_OF_TIMEOUT_VALUES then Some(values) else None
  {
    if |values| == NUMBER_OF_TIMEOUT_VALUES {
      var toks := Tokens(line);
      assert Parse(line).Some?;
      assert Parse(line).value == values;
    }
  }

  /**
   * The token loop of the parser: reads the fields one by one with atoi,
   * gives up on a seventh field or on a value outside [1, 9998], and
   * succeeds when exactly six fields were read.
   */
  /** One more field read in order keeps the values read so far in step with the fields. */
  lemma ReadField(toks: seq<seq<char>>, values: seq<int>, temp: int)
    requires |values| < |toks|
    requires forall k | 0 <= k < |values| :: values[k] == Atoi(toks[k]) && IsValidTimeout(values[k])
    requires temp == Atoi(toks[|values|]) && IsValidTimeout(temp)
    ensures forall k | 0 <= k < |values| + 1 ::
              (values + [temp])[k] == Atoi(toks[k]) && IsValidTimeout((values + [temp])[k])
  {
  }

  method ScanTimeouts(line: seq<char>) returns (ok: bool, values: seq<int>)
    ensures ok <==> Parse(line).Some?
    ensures ok ==> values == Parse(line).value
  {
    ghost var toks := Tokens(line);
    values := [];
    var found, start, end := Strtok(line, 0);
    while found
      invariant |values| <= NUMBER_OF_TIMEOUT_VALUES
      invariant found ==> start < end <= |line| && |values| < |toks| &&
                          toks[|values|] == line[start..end] && toks[|values| + 1..] == TokensFrom(line, end)
      invariant !found ==> |values| == |toks|
      invariant forall k | 0 <= k < |values| :: values[k] == Atoi(toks[k]) && IsValidTimeout(values[k])
      decreases if found then |line| - start else 0
    {
      if |values| >= NUMBER_OF_TIMEOUT_VALUES {
        TooManyFields(line);
        return false, values;
      }
      var temp := Atoi(line[start..end]);
      if temp <= 0 || temp >= 9999 {
        InvalidField(line, |values|);
        return false, values;
      }
      ReadField(toks, values, temp);
      values := values + [temp];
      ghost var rest := toks[|values|..];
      found, start, end := Strtok(line, end);
      assert found ==> toks[|values|] == rest[0] && toks[|values| + 1..] == rest[1..];
    }
    AllFieldsRead(line, values);
    ok := |values| == NUMBER_OF_TIMEOUT_VALUES;
  }

  // ---- the inverse: writing a line ----

  function Digit(d: nat): char
    requires d < 10
  {
    ('0' as int + d) as char
  }

  /** The decimal numeral of `n`, without leading zeros. */
  function Decimal(n: nat): (s: seq<char>)
    ensures |s| > 0 && AllDigits(s)
  {
    if n < 10 then [Digit(n)] else Decimal(n / 10) + [Digit(n % 10)]
  }

  /** Fields joined with commas. */
  function Join(toks: seq<seq<char>>): seq<char>
  {
    if |toks| == 0 then []
    else if |toks| == 1 then toks[0]
    else toks[0] + [','] + Join(toks[1..])
  }

  function Numerals(values: seq<nat>): (toks: seq<seq<char>>)
    ensures |toks| == |values|
    ensures forall i | 0 <= i < |values| :: toks[i] == Decimal(values[i])
  {
    seq(|values|, i requires 0 <= i < |values| => Decimal(values[i]))
  }

  /** The line an operator types for `values`. */
  function Format(values: seq<nat>): seq<char>
  {
    Join(Numerals(values))
  }

  lemma {:induction false} ValueOfDecimal(n: nat)
    ensures Value(Decimal(n)) == n
  {
    if n >= 10 {
      var s := Decimal(n);
      assert s[..|s| - 1] == Decimal(n / 10);
      ValueOfDecimal(n / 10);
    }
  }

  lemma AtoiOfDecimal(n: nat)
    ensures Atoi(Decimal(n)) == n
  {
    var s := Decimal(n);
    assert SkipSpaces(s, 0) == 0;
    assert DigitsEnd(s, 0) == |s| by {
      DigitsEndOfDigits(s, 0);
    }
    assert s[0..|s|] == s;
    ValueOfDecimal(n);
  }

  lemma {:induction false} DigitsEndOfDigits(s: seq<char>, i: nat)
    requires i <= |s| && AllDigits(s)
    ensures DigitsEnd(s, i) == |s|
    decreases |s| - i
  {
    if i < |s| {
      DigitsEndOfDigits(s, i + 1);
    }
  }

  lemma {:induction false} SkipDelimsShift(p: seq<char>, s: seq<char>, i: nat)
    requires i <= |s|
    ensures SkipDelims(p + s, |p| + i) == |p| + SkipDelims(s, i)
    decreases |s| - i
  {
    if i < |s| {
      assert (p + s)[|p| + i] == s[i];
      if s[i] == ',' {
        SkipDelimsShift(p, s, i + 1);
      }
    }
  }

  lemma {:induction false} TokenEndShift(p: seq<char>, s: seq<char>, i: nat)
    requires i <= |s|
    ensures TokenEnd(p + s, |p| + i) == |p| + TokenEnd(s, i)
    decreases |s| - i
  {
    if i < |s| {
      assert (p + s)[|p| + i] == s[i];
      if s[i] != ',' {
        TokenEndShift(p, s, i + 1);
      }
    }
  }

  /** One step of strtok: the field found first, then the fields after it. */
  lemma TokensFromStep(s: seq<char>, i: nat, a: nat, b: nat)
    requires i <= |s|
    requires a == SkipDelims(s, i) < |s|
    requires b == TokenEnd(s, a)
    ensures TokensFrom(s, i) == [s[a..b]] + TokensFrom(s, b)
  {
  }

  /** Only commas left: strtok finds nothing more. */
  lemma TokensFromEnd(s: seq<char>, i: nat)
    requires i <= |s|
    requires SkipDelims(s, i) == |s|
    ensures TokensFrom(s, i) == []
  {
  }

  lemma SliceShift(p: seq<char>, s: seq<char>, a: nat, b: nat)
    requires a <= b <= |s|
    ensures (p + s)[|p| + a..|p| + b] == s[a..b]
  {
  }

  /** Text in front of position `|p| + i` does not change the fields found from there. */
  lemma {:induction false} TokensFromShift(p: seq<char>, s: seq<char>, i: nat)
    requires i <= |s|
    ensures TokensFrom(p + s, |p| + i) == TokensFrom(s, i)
    decreases |s| - i
  {
    SkipDelimsShift(p, s, i);
    var a := SkipDelims(s, i);
    if a < |s| {
      TokenEndShift(p, s, a);
      var b := TokenEnd(s, a);
      TokensFromShift(p, s, b);
      ShiftedStep(p, s, i, a, b);
    } else {
      TokensFromEnd(s, i);
      TokensFromEnd(p + s, |p| + i);
    }
  }

  /** The inductive step of `TokensFromShift`: the same field is found first. */
  lemma ShiftedStep(p: seq<char>, s: seq<char>, i: nat, a: nat, b: nat)
    requires i <= |s|
    requires a == SkipDelims(s, i) < |s| && b == TokenEnd(s, a)
    requires SkipDelims(p + s, |p| + i) == |p| + a
    requires TokenEnd(p + s, |p| + a) == |p| + b
    requires TokensFrom(p + s, |p| + b) == TokensFrom(s, b)
    ensures TokensFrom(p + s, |p| + i) == TokensFrom(s, i)
  {
    TokensFromStep(s, i, a, b);
    TokensFromStep(p + s, |p| + i, |p| + a, |p| + b);
    SliceShift(p, s, a, b);
  }

  /** A line holding one well-formed field splits into that field. */
  lemma SingleField(t: seq<char>)
    requires WellFormedToken(t)
    ensures Tokens(t) == [t]
  {
    assert SkipDelims(t, 0) == 0;
    TokenEndAt(t, 0, |t|);
    assert t[0..|t|] == t;
    assert TokensFrom(t, |t|) == [];
  }

  /** A well-formed field and a comma in front of a line add that field in front of its fields. */
  lemma FieldThenRest(t: seq<char>, rest: seq<char>)
    requires WellFormedToken(t)
    ensures Tokens(t + [','] + rest) == [t] + Tokens(rest)
  {
    var s := t + [','] + rest;
    assert s[0] == t[0];
    assert SkipDelims(s, 0) == 0;
    assert s[|t|] == ',';
    TokenEndAt(s, 0, |t|);
    assert s[0..|t|] == t;
    assert TokensFrom(s, |t|) == TokensFrom(s, |t| + 1);
    TokensFromShift(t + [','], rest, 0);
  }

  /** Splitting joined well-formed fields gives the fields back. */
  lemma {:induction false} TokensOfJoin(toks: seq<seq<char>>)
    requires forall k | 0 <= k < |toks| :: WellFormedToken(toks[k])
    ensures Tokens(Join(toks)) == toks
    decreases |toks|
  {
    if |toks| == 1 {
      SingleField(toks[0]);
    } else if |toks| > 1 {
      FieldThenRest(toks[0], Join(toks[1..]));
      TokensOfJoin(toks[1..]);
    }
  }

  lemma NumeralsAreTokens(values: seq<nat>)
    ensures forall k | 0 <= k < |values| :: WellFormedToken(Numerals(values)[k])
  {
    forall k | 0 <= k < |values|
      ensures WellFormedToken(Numerals(values)[k])
    {
      var d := Decimal(values[k]);
      assert forall j | 0 <= j < |d| :: IsDigit(d[j]);
    }
  }

  /**
   * Round trip: a line written from values is accepted exactly when there
   * are six values all in [1, 9998], and then it yields those values.
   */
  lemma ParseFormat(values: seq<nat>, line: seq<char>)
    requires line == Format(values)
    ensures Parse(line) ==
              if |values| == NUMBER_OF_TIMEOUT_VALUES && forall i | 0 <= i < |values| :: IsValidTimeout(values[i])
              then Some(values) else None
  {
    NumeralsAreTokens(values);
    TokensOfJoin(Numerals(values));
    var toks := Tokens(line);
    assert toks == Numerals(values);
    forall i | 0 <= i < |values|
      ensures Atoi(toks[i]) == values[i]
    {
      AtoiOfDecimal(values[i]);
    }
    if Parse(line).Some? {
      assert Parse(line).value == values;
    }
  }

  // ---- example lines ----
  // Each example is reduced to ParseFormat. The helper lemmas after it
  // (the ...Valid, ...Numerals and ...Joined chains and JoinStep) only
  // break the string-literal equalities into steps small enough for the
  // solver; they state nothing new about the controller.

  lemma AcceptsSixValues(line: seq<char>)
    requires line == "100,200,300,400,500,600"
    ensures Parse(line) == Some([100, 200, 300, 400, 500, 600])
  {
    var values: seq<nat> := [100, 200, 300, 400, 500, 600];
    var numerals := ["100", "200", "300", "400", "500", "600"];
    SixNumerals(values, numerals);
    SixJoined(numerals, line);
    SixValid(values);
    ParseFormat(values, line);
  }

  lemma SixValid(values: seq<nat>)
    requires values == [100, 200, 300, 400, 500, 600]
    ensures forall i | 0 <= i < |values| :: IsValidTimeout(values[i])
  {
    forall i | 0 <= i < |values|
      ensures IsValidTimeout(values[i])
    {
      assert 100 <= values[i] <= 600;
    }
  }

  lemma SixNumerals(values: seq<nat>, numerals: seq<seq<char>>)
    requires values == [100, 200, 300, 400, 500, 600]
    requires numerals == ["100", "200", "300", "400", "500", "600"]
    ensures Numerals(values) == numerals
  {
    assert Decimal(100) == "100";
    assert Decimal(200) == "200";
    assert Decimal(300) == "300";
    assert Decimal(400) == "400";
    assert Decimal(500) == "500";
    assert Decimal(600) == "600";
  }

  lemma SixJoined(numerals: seq<seq<char>>, line: seq<char>)
    requires numerals == ["100", "200", "300", "400", "500", "600"]
    requires line == "100,200,300,400,500,600"
    ensures Join(numerals) == line
  {
    var tail := numerals[1..];
    LastFiveJoined(tail);
    JoinStep("100", tail, line);
    assert ["100"] + tail == numerals;
  }

  lemma LastFiveJoined(numerals: seq<seq<char>>)
    requires numerals == ["200", "300", "400", "500", "600"]
    ensures Join(numerals) == "200,300,400,500,600"
  {
    var tail := numerals[1..];
    LastFourJoined(tail);
    JoinStep("200", tail, "200,300,400,500,600");
    assert ["200"] + tail == numerals;
  }

  lemma LastFourJoined(numerals: seq<seq<char>>)
    requires numerals == ["300", "400", "500", "600"]
    ensures Join(numerals) == "300,400,500,600"
  {
    var tail := numerals[1..];
    LastThreeJoined(tail);
    JoinStep("300", tail, "300,400,500,600");
    assert ["300"] + tail == numerals;
  }

  lemma LastThreeJoined(numerals: seq<seq<char>>)
    requires numerals == ["400", "500", "600"]
    ensures Join(numerals) == "400,500,600"
  {
    var j5: seq<seq<char>> := ["600"];
    var j4 := ["500"] + j5;
    JoinStep("500", j5, "500,600");
    JoinStep("400", j4, "400,500,600");
    assert ["400"] + j4 == numerals;
  }

  /** Joining one more field in front. */
  lemma JoinStep(t: seq<char>, rest: seq<seq<char>>, line: seq<char>)
    requires |rest| > 0
    requires line == t + [','] + Join(rest)
    ensures Join([t] + rest) == line
  {
    assert ([t] + rest)[1..] == rest;
  }

  lemma RejectsThreeValues(line: seq<char>)
    requires line == "100,200,300"
    ensures Parse(line) == None
  {
    var values: seq<nat> := [100, 200, 300];
    var numerals := ["100", "200", "300"];
    ThreeNumerals(values, numerals);
    ThreeJoined(numerals, line);
    ParseFormat(values, line);
  }

  lemma ThreeNumerals(values: seq<nat>, numerals: seq<seq<char>>)
    requires values == [100, 200, 300]
    requires numerals == ["100", "200", "300"]
    ensures Numerals(values) == numerals
  {
    assert Decimal(100) == "100";
    assert Decimal(200) == "200";
    assert Decimal(300) == "300";
  }

  lemma ThreeJoined(numerals: seq<seq<char>>, line: seq<char>)
    requires numerals == ["100", "200", "300"]
    requires line == "100,200,300"
    ensures Join(numerals) == line
  {
    assert Join(numerals[1..]) == "200,300";
  }

  lemma RejectsValueOverBound(line: seq<char>)
    requires line == "10000,1,1,1,1,1"
    ensures Parse(line) == None
  {
    var values: seq<nat> := [10000, 1, 1, 1, 1, 1];
    var numerals := ["10000", "1", "1", "1", "1", "1"];
    OverBoundNumerals(values, numerals);
    OverBoundJoined(numerals, line);
    assert !IsValidTimeout(values[0]);
    ParseFormat(values, line);
  }

  lemma OverBoundNumerals(values: seq<nat>, numerals: seq<seq<char>>)
    requires values == [10000, 1, 1, 1, 1, 1]
    requires numerals == ["10000", "1", "1", "1", "1", "1"]
    ensures Numerals(values) == numerals
  {
    assert Decimal(1) == "1";
    assert Decimal(10000) == "10000";
  }

  lemma OverBoundJoined(numerals: seq<seq<char>>, line: seq<char>)
    requires numerals == ["10000", "1", "1", "1", "1", "1"]
    requires line == "10000,1,1,1,1,1"
    ensures Join(numerals) == line
  {
    var j5: seq<seq<char>> := ["1"];
    var j4 := ["1"] + j5;
    JoinStep("1", j5, "1,1");
    var j3 := ["1"] + j4;
    JoinStep("1", j4, "1,1,1");
    var j2 := ["1"] + j3;
    JoinStep("1", j3, "1,1,1,1");
    var j1 := ["1"] + j2;
    JoinStep("1", j2, "1,1,1,1,1");
    var j0 := ["10000"] + j1;
    JoinStep("10000", j1, line);
    assert j0 == numerals;
  }
}
