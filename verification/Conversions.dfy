/** `$type` and `$format`: conversion between values, with decimal printing and parsing spelled out. */
module Conversions {
  import opened Values

  /** What the Go runtime decides and this model does not: float text, composite text, dates. */
  datatype Runtime = Runtime(
    showFloat: real -> string,
    parseFloat: string -> Option<real>,
    showComposite: Value -> string,
    overflow: real -> int64,
    date: (int64, string) -> string)

  datatype Failure =
    | SourceNotString
    | SourceNotArray
    | TypeNotString
    | FormatNotString
    | CannotConvert
    | UnknownType
    | BadTimestamp

  // ---- Decimal notation ----

  predicate IsDigit(c: char) { '0' <= c <= '9' }

  function Digit(d: nat): (c: char)
    requires d < 10
    ensures IsDigit(c) && c as int - '0' as int == d
  {
    '0' + d as char
  }

  function FormatNat(n: nat): (s: string)
    ensures s != "" && IsDigit(s[0])
  {
    if n < 10 then [Digit(n)] else FormatNat(n / 10) + [Digit(n % 10)]
  }

  /** `strconv.FormatInt(n, 10)`. */
  function FormatInt(n: int): (s: string) {
    if n < 0 then "-" + FormatNat(-n) else FormatNat(n)
  }

  /** The number a non-empty run of digits stands for. */
  function ParseNat(s: string): (n: Option<nat>) {
    if s == "" then None
    else
      var c := s[|s| - 1];
      if !IsDigit(c) then None
      else if |s| == 1 then Some(c as int - '0' as int)
      else
        var front := ParseNat(s[..|s| - 1]);
        if front.None? then None else Some(10 * front.value + (c as int - '0' as int))
  }

  /** `strconv.ParseInt(s, 10, 64)`: an optional sign, digits, and a 64-bit result. */
  function ParseInt(s: string): (n: Option<int64>) {
    if s == "" then None
    else
      var signed := s[0] == '+' || s[0] == '-';
      var magnitude := ParseNat(if signed then s[1..] else s);
      if magnitude.None? then None
      else
        var m: int := magnitude.value;
        if s[0] == '-' then (if m <= INT64_LIMIT then Some(-m) else None)
        else (if m < INT64_LIMIT then Some(m) else None)
  }

  lemma {:induction false} ParseNatOfFormat(n: nat)
    ensures ParseNat(FormatNat(n)) == Some(n)
  {
    if n >= 10 {
      var s := FormatNat(n);
      ParseNatOfFormat(n / 10);
      assert s[..|s| - 1] == FormatNat(n / 10);
    }
  }

  predicate AllDigits(s: string) {
    s != "" && forall k :: 0 <= k < |s| ==> '0' <= s[k] <= '9'
  }

  function TenTo(n: nat): nat {
    if n == 0 then 1 else 10 * TenTo(n - 1)
  }

  /** The number a row of digits denotes, place by place from the left. */
  function PlaceValue(s: string): int {
    if s == "" then 0 else (s[0] as int - '0' as int) * TenTo(|s| - 1) + PlaceValue(s[1..])
  }

  lemma {:induction false} PlaceValueSplits(s: string, c: char)
    ensures PlaceValue(s + [c]) == 10 * PlaceValue(s) + (c as int - '0' as int)
  {
    if s == "" {
      assert PlaceValue([c]) == (c as int - '0' as int) * TenTo(0) + PlaceValue([c][1..]);
    } else {
      assert (s + [c])[1..] == s[1..] + [c];
      PlaceValueSplits(s[1..], c);
      ShiftPlace(s[0] as int - '0' as int, TenTo(|s| - 1));
    }
  }

  lemma ShiftPlace(d: int, p: int)
    ensures d * (10 * p) == 10 * (d * p)
  {
  }

  /** Exactly the rows of digits are numbers, and their places say which. */
  lemma {:induction false} ParseNatIsDecimal(s: string)
    ensures ParseNat(s).Some? <==> AllDigits(s)
    ensures AllDigits(s) ==> ParseNat(s).value == PlaceValue(s)
  {
    if s != "" {
      var front, c := s[..|s| - 1], s[|s| - 1];
      assert s == front + [c];
      ParseNatIsDecimal(front);
      PlaceValueSplits(front, c);
      hide PlaceValue;
      assert front == "" ==> PlaceValue(front) == 0 by { NoPlaces(); }
      assert forall k :: 0 <= k < |front| ==> front[k] == s[k];
    }
  }

  lemma NoPlaces()
    ensures PlaceValue("") == 0
  {
  }

  /**
    What parses as a 64-bit integer: digits after at most one sign, within the range, and the value is
    the one its places denote.
   */
  lemma ParseIntIsDecimal(s: string)
    ensures
      var negative := s != "" && s[0] == '-';
      var digits := if s != "" && (s[0] == '-' || s[0] == '+') then s[1..] else s;
      var value := if negative then -PlaceValue(digits) else PlaceValue(digits);
      if AllDigits(digits) && -0x8000_0000_0000_0000 <= value <= 0x7fff_ffff_ffff_ffff
      then ParseInt(s) == Some(value)
      else ParseInt(s) == None
  {
    var digits := if s != "" && (s[0] == '-' || s[0] == '+') then s[1..] else s;
    ParseNatIsDecimal(digits);
    hide ParseNat, PlaceValue, AllDigits;
    assert s == "" ==> !AllDigits(digits) by { NothingIsNoNumber(); }
    assert AllDigits(digits) ==> PlaceValue(digits) >= 0;
  }

  lemma NothingIsNoNumber()
    ensures !AllDigits("")
  {
  }

  /** Every 64-bit number survives being printed and parsed. */
  lemma ParseIntOfFormat(n: int64)
    ensures ParseInt(FormatInt(n)) == Some(n)
  {
    var i: int := n;
    if i < 0 {
      ParseNatOfFormat(-i);
      assert ("-" + FormatNat(-i))[1..] == FormatNat(-i);
    } else {
      ParseNatOfFormat(n);
    }
  }

  /** No plus sign, no leading zero, no negative zero. */
  predicate Canonical(s: string) {
    s == "0" || (var digits := if s != "" && s[0] == '-' then s[1..] else s; digits != "" && '1' <= digits[0] <= '9')
  }

  lemma {:induction false} FormatOfParseNat(s: string)
    requires ParseNat(s).Some?
    ensures s == "0" || '1' <= s[0] <= '9' <==> FormatNat(ParseNat(s).value) == s
    ensures s[0] != '0' ==> ParseNat(s).value > 0
  {
    var n := ParseNat(s).value;
    if |s| > 1 {
      var front := s[..|s| - 1];
      FormatOfParseNat(front);
      assert front[0] == s[0];
      assert s == front + [s[|s| - 1]];
      if front == "0" {
        assert |FormatNat(n)| == 1;
      } else if front[0] == '0' {
        NoLeadingZero(n);
        assert s[0] == '0' && s != "0";
      } else {
        assert n / 10 == ParseNat(front).value && n >= 10;
      }
    } else {
      assert s == [s[0]];
    }
  }

  lemma {:induction false} NoLeadingZero(n: nat)
    ensures n > 0 ==> FormatNat(n)[0] != '0'
    ensures n == 0 ==> FormatNat(n) == "0"
  {
    if n >= 10 { NoLeadingZero(n / 10); }
  }

  /** Parsing forgets nothing exactly when the text was canonical. */
  lemma FormatOfParseInt(s: string)
    requires ParseInt(s).Some?
    ensures FormatInt(ParseInt(s).value) == s <==> Canonical(s)
  {
    if s[0] == '-' {
      FormatOfParseNegative(s);
    } else if s[0] == '+' {
      PlusIsNeverFormatted(s, ParseInt(s).value);
    } else {
      FormatOfParseNat(s);
      hide ParseNat, FormatNat;
    }
  }

  lemma FormatOfParseNegative(s: string)
    requires ParseInt(s).Some? && s[0] == '-'
    ensures FormatInt(ParseInt(s).value) == s <==> Canonical(s)
  {
    var n: int := ParseInt(s).value;
    var digits := s[1..];
    assert s == "-" + digits;
    FormatOfParseNat(digits);
    assert ParseNat(digits) == Some(-n);
    hide ParseNat, FormatNat, ParseInt;
    if n < 0 {
      assert FormatInt(n) == "-" + FormatNat(-n);
      assert FormatInt(n)[1..] == FormatNat(-n);
      ZeroIsZero();
    } else {
      assert FormatInt(n) == FormatNat(0);
    }
  }

  lemma ZeroIsZero()
    ensures ParseNat("0") == Some(0)
  {
  }

  lemma PlusIsNeverFormatted(s: string, n: int)
    requires s != "" && s[0] == '+'
    ensures FormatInt(n) != s && !Canonical(s)
  {
    hide FormatNat;
  }

  // ---- Conversion ----

  /** Truncation toward zero. */
  function Trunc(r: real): (n: int) {
    if r >= 0.0 then r.Floor else -((-r).Floor)
  }

  /** Go's `int64(f)`; outside the range the result is up to the implementation. */
  function FloatToInt(rt: Runtime, r: real): int64 {
    if -INT64_LIMIT <= Trunc(r) < INT64_LIMIT then Trunc(r) else rt.overflow(r)
  }

  function FormatBool(b: bool): string { if b then "true" else "false" }

  /** `strconv.ParseBool`. */
  function ParseBool(s: string): Option<bool> {
    if s in ["1", "t", "T", "true", "TRUE", "True"] then Some(true)
    else if s in ["0", "f", "F", "false", "FALSE", "False"] then Some(false)
    else None
  }

  function ToText(rt: Runtime, v: Value): string {
    match v
    case Null => ""
    case Str(s) => s
    case Int(i) => FormatInt(i)
    case Int64(n) => FormatInt(n)
    case Float(r) => rt.showFloat(r)
    case Bool(b) => FormatBool(b)
    case _ => rt.showComposite(v)
  }

  function Parsed<T>(parsed: Option<T>, wrap: T -> Value): Result<Value, Failure> {
    match parsed
    case Some(x) => Ok(wrap(x))
    case None => Err(CannotConvert)
  }

  function ToInteger(rt: Runtime, v: Value): Result<Value, Failure> {
    match v
    case Int(i) => Ok(Int64(i))
    case Int64(n) => Ok(v)
    case Float(r) => Ok(Int64(FloatToInt(rt, r)))
    case Str(s) => Parsed(ParseInt(s), n => Int64(n))
    case _ => Err(CannotConvert)
  }

  function ToNumber(rt: Runtime, v: Value): Result<Value, Failure> {
    match v
    case Int(_) => Ok(v)
    case Int64(_) => Ok(v)
    case Float(_) => Ok(v)
    case Str(s) => Parsed(rt.parseFloat(s), r => Float(r))
    case _ => Err(CannotConvert)
  }

  function ToBoolean(v: Value): Result<Value, Failure> {
    match v
    case Bool(_) => Ok(v)
    case Int(i) => Ok(Bool(i != 0))
    case Int64(n) => Ok(Bool(n != 0))
    case Float(r) => Ok(Bool(r != 0.0))
    case Str(s) => Parsed(ParseBool(s), b => Bool(b))
    case _ => Err(CannotConvert)
  }

  function ConvertType(rt: Runtime, v: Value, typeName: string): (r: Result<Value, Failure>) {
    if typeName == "string" then Ok(Str(ToText(rt, v)))
    else if typeName == "integer" then ToInteger(rt, v)
    else if typeName == "number" then ToNumber(rt, v)
    else if typeName == "boolean" then ToBoolean(v)
    else Err(UnknownType)
  }

  /** `$format`: the text must be a Unix time in seconds. */
  function FormatValue(rt: Runtime, text: string, format: string): Result<Value, Failure> {
    match ParseInt(text)
    case Some(n) => Ok(Str(rt.date(n, format)))
    case None => Err(BadTimestamp)
  }

  /** Converting once settles the value: converting again to the same type changes nothing. */
  lemma ConversionSettles(rt: Runtime, v: Value, typeName: string)
    requires ConvertType(rt, v, typeName).Ok?
    ensures ConvertType(rt, ConvertType(rt, v, typeName).value, typeName) == ConvertType(rt, v, typeName)
  {
    hide ParseInt, ParseBool, FormatInt;
  }

  /** Any 64-bit integer, however it is held, comes back from its text. */
  lemma IntegerSurvivesText(rt: Runtime, v: Value)
    requires v.Int? || v.Int64?
    ensures
      var text := ConvertType(rt, v, "string");
      text.Ok? && ConvertType(rt, text.value, "integer") == ConvertType(rt, v, "integer")
  {
    ParseIntOfFormat(if v.Int? then v.i else v.n);
    hide ParseInt, FormatInt;
  }

  /** Text that is an integer comes back from the integer exactly when it was canonical. */
  lemma TextSurvivesInteger(rt: Runtime, s: string)
    requires ConvertType(rt, Str(s), "integer").Ok?
    ensures ConvertType(rt, ConvertType(rt, Str(s), "integer").value, "string") == Ok(Str(s)) <==> Canonical(s)
  {
    FormatOfParseInt(s);
    hide ParseInt, FormatInt;
  }

  /** A float that fits loses its fraction, toward zero. */
  lemma IntegerTruncates(rt: Runtime, r: real)
    requires -(INT64_LIMIT as real) <= r < INT64_LIMIT as real
    ensures
      var integer := ConvertType(rt, Float(r), "integer");
      && integer.Ok? && integer.value.Int64?
      && var n := integer.value.n as real;
         (0.0 <= n <= r < n + 1.0) || (n - 1.0 < r <= n <= 0.0)
  {
  }

  /**
    Going through an integer does not change whether a number counts as true, except exactly for
    the fractions that truncation turns into zero.
   */
  lemma TruthSurvivesInteger(rt: Runtime, v: Value)
    requires v.Int? || v.Int64? || (v.Float? && -(INT64_LIMIT as real) <= v.r < INT64_LIMIT as real)
    ensures
      var integer := ConvertType(rt, v, "integer");
      && integer.Ok?
      && (ConvertType(rt, integer.value, "boolean") == ConvertType(rt, v, "boolean") <==>
            !(v.Float? && v.r != 0.0 && -1.0 < v.r < 1.0))
  {
    if v.Float? { IntegerTruncates(rt, v.r); }
  }

  lemma BooleanSurvivesText(rt: Runtime, b: bool)
    ensures
      var text := ConvertType(rt, Bool(b), "string");
      text.Ok? && ConvertType(rt, text.value, "boolean") == Ok(Bool(b))
  {
  }

  // ---- Single conversions ----

  /** A number counts as false exactly when it is zero. */
  lemma ZeroIsFalse(rt: Runtime, i: int64, r: real)
    ensures ConvertType(rt, Int(i), "boolean") == Ok(Bool(false)) <==> i == 0
    ensures ConvertType(rt, Int(i), "boolean") == Ok(Bool(true)) <==> i != 0
    ensures ConvertType(rt, Int64(i), "boolean") == Ok(Bool(false)) <==> i == 0
    ensures ConvertType(rt, Int64(i), "boolean") == Ok(Bool(true)) <==> i != 0
    ensures ConvertType(rt, Float(r), "boolean") == Ok(Bool(false)) <==> r == 0.0
    ensures ConvertType(rt, Float(r), "boolean") == Ok(Bool(true)) <==> r != 0.0
  {
  }

  /** An integer and its decimal text count the same exactly for zero and one; no other text of an integer counts. */
  lemma TextsOfZeroAndOne(rt: Runtime, i: int64)
    ensures
      var text := ConvertType(rt, Int(i), "string");
      && text.Ok?
      && (i == 0 || i == 1 ==> ConvertType(rt, text.value, "boolean") == ConvertType(rt, Int(i), "boolean"))
      && (ConvertType(rt, text.value, "boolean").Ok? <==> i == 0 || i == 1)
  {
    ParseIntOfFormat(i);
    var text := FormatInt(i);
    ShortTexts();
    LettersAreNoNumbers();
    hide ParseInt, FormatInt;
    assert text == "0" ==> i == 0;
    assert text == "1" ==> i == 1;
  }

  lemma ShortTexts()
    ensures ParseInt("0") == Some(0) && ParseInt("1") == Some(1)
    ensures FormatInt(0) == "0" && FormatInt(1) == "1"
  {
  }

  lemma LettersAreNoNumbers()
    ensures forall s :: s in ["t", "T", "true", "TRUE", "True", "f", "F", "false", "FALSE", "False"] ==>
      ParseInt(s) == None
  {
    forall s | s in ["t", "T", "true", "TRUE", "True", "f", "F", "false", "FALSE", "False"]
      ensures ParseInt(s) == None
    {
      assert !IsDigit(s[|s| - 1]) && s[0] != '-' && s[0] != '+';
    }
  }

  /** The texts that count as true: one, the letter, or the word in small, capital or mixed letters; likewise false. */
  lemma BooleansOfTexts(rt: Runtime, s: string)
    ensures ConvertType(rt, Str(s), "boolean") == Ok(Bool(true)) <==>
      s == "1" || s == "t" || s == "T" || s == "true" || s == "TRUE" || s == "True"
    ensures ConvertType(rt, Str(s), "boolean") == Ok(Bool(false)) <==>
      s == "0" || s == "f" || s == "F" || s == "false" || s == "FALSE" || s == "False"
    ensures ConvertType(rt, Str(s), "boolean").Err? ==> ConvertType(rt, Str(s), "boolean") == Err(CannotConvert)
  {
  }

  /** Numbers stay what they are; a text is the float it parses as, and none exactly when it does not parse. */
  lemma NumbersOfTexts(rt: Runtime, s: string, v: Value)
    ensures forall r :: ConvertType(rt, Str(s), "number") == Ok(Float(r)) <==> rt.parseFloat(s) == Some(r)
    ensures ConvertType(rt, Str(s), "number") == Err(CannotConvert) <==> rt.parseFloat(s) == None
    ensures v.Int? || v.Int64? || v.Float? ==> ConvertType(rt, v, "number") == Ok(v)
  {
  }

  /** The texts of values other than composites; null has an empty one. */
  lemma TextsOfValues(rt: Runtime, s: string, r: real)
    ensures ConvertType(rt, Null, "string") == Ok(Str(""))
    ensures ConvertType(rt, Str(s), "string") == Ok(Str(s))
    ensures ConvertType(rt, Float(r), "string") == Ok(Str(rt.showFloat(r)))
    ensures ConvertType(rt, Bool(true), "string") == Ok(Str("true"))
    ensures ConvertType(rt, Bool(false), "string") == Ok(Str("false"))
  {
  }

  /** Nothing else converts: composites and null only to text, booleans to no number, and to no other type. */
  lemma NothingElseConverts(rt: Runtime, v: Value, typeName: string)
    ensures v.Null? || v.Arr? || v.Obj? ==> (ConvertType(rt, v, typeName).Ok? <==> typeName == "string")
    ensures v.Bool? ==> (ConvertType(rt, v, typeName).Ok? <==> typeName == "string" || typeName == "boolean")
    ensures ConvertType(rt, v, typeName) == Err(UnknownType) <==>
      typeName != "string" && typeName != "integer" && typeName != "number" && typeName != "boolean"
  {
    hide ParseInt, ParseBool, FormatInt;
  }
}
