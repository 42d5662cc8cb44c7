/** The server's JSON parser: its recursive descent as functions on (text, position), and the parser
    object whose loops compute exactly those functions. Numbers are reals. */
module Json {
  import opened Tokens

  datatype Json =
    | Null
    | Bool(flag: bool)
    | Number(number: real)
    | String(text: string)
    | Array(items: seq<Json>)
    | Object(fields: map<string, Json>)

  datatype ErrorKind =
    | EndOfInput
    | UnexpectedCharacter(c: char, at: nat)
    | ExpectedKey(at: nat)
    | ExpectedColon(at: nat)
    | ExpectedCommaOrBrace(at: nat)
    | ExpectedCommaOrBracket(at: nat)
    | UnterminatedEscape
    | UnsupportedEscape(c: char)
    | UnterminatedString
    | InvalidLiteral(at: nat)
    | InvalidNumber(at: nat)
    | TrailingData

  datatype Result<T> = Ok(value: T) | Fail(error: ErrorKind)

  /** What a parsing function returns, and where it leaves the position. */
  datatype Parsed<T> = Parsed(result: Result<T>, pos: nat)

  // ---- access to values ----------------------------------------------------------------------

  /** `operator[]`: a missing key, or a value that is no object, gives null. */
  function Field(j: Json, key: string): Json {
    if j.Object? && key in j.fields then j.fields[key] else Null
  }

  function AsString(j: Json): string {
    if j.String? then j.text else ""
  }

  /** The conversion of a floating-point number to an integer drops the fraction. */
  function Truncate(x: real): int {
    if x >= 0.0 then x.Floor else -((-x).Floor)
  }

  function AsInt(j: Json): int {
    if j.Number? then Truncate(j.number) else 0
  }

  /** `array_value` of any value: empty unless it is an array. */
  function ItemsOf(j: Json): seq<Json> {
    if j.Array? then j.items else []
  }

  /** `object_value` of any value: empty unless it is an object. */
  function Fields(j: Json): map<string, Json> {
    if j.Object? then j.fields else map[]
  }

  /** The strings of an array; other elements count as empty strings. */
  function TextsOf(items: seq<Json>): seq<string> {
    seq(|items|, i requires 0 <= i < |items| => AsString(items[i]))
  }

  /** The loop that appends the strings of an array to a vector. */
  method CollectTexts(items: seq<Json>) returns (texts: seq<string>)
    ensures texts == TextsOf(items)
  {
    texts := [];
    for i := 0 to |items|
      invariant |texts| == i && forall k :: 0 <= k < i ==> texts[k] == AsString(items[k])
    {
      texts := texts + [AsString(items[i])];
    }
  }

  // ---- characters ----------------------------------------------------------------------------

  predicate IsDigit(c: char) {
    '0' <= c <= '9'
  }

  predicate IsEscape(c: char) {
    c in "\"\\/ntr"
  }

  /** The character an escape stands for. */
  function Unescape(c: char): char
    requires IsEscape(c)
  {
    if c == 'n' then '\n' else if c == 't' then '\t' else if c == 'r' then '\r' else c
  }

  // ---- scanning ------------------------------------------------------------------------------

  function SkipWs(s: string, pos: nat): (end: nat)
    requires pos <= |s|
    ensures pos <= end <= |s|
    decreases |s| - pos
  {
    if pos < |s| && IsSpace(s[pos]) then SkipWs(s, pos + 1) else pos
  }

  function SkipDigits(s: string, pos: nat): (end: nat)
    requires pos <= |s|
    ensures pos <= end <= |s|
    decreases |s| - pos
  {
    if pos < |s| && IsDigit(s[pos]) then SkipDigits(s, pos + 1) else pos
  }

  predicate Has(s: string, pos: nat, c: char) {
    pos < |s| && s[pos] == c
  }

  function SkipSign(s: string, pos: nat): nat {
    if Has(s, pos, '-') then pos + 1 else pos
  }

  function SkipFraction(s: string, pos: nat): (end: nat)
    requires pos <= |s|
    ensures pos <= end <= |s|
  {
    if Has(s, pos, '.') then SkipDigits(s, pos + 1) else pos
  }

  function SkipExponent(s: string, pos: nat): (end: nat)
    requires pos <= |s|
    ensures pos <= end <= |s|
  {
    if Has(s, pos, 'e') || Has(s, pos, 'E') then
      SkipDigits(s, if Has(s, pos + 1, '+') || Has(s, pos + 1, '-') then pos + 2 else pos + 1)
    else pos
  }

  /** The end of the longest number-like stretch from `pos`. */
  function NumberEnd(s: string, pos: nat): (end: nat)
    requires pos <= |s|
    ensures pos <= end <= |s|
  {
    SkipExponent(s, SkipFraction(s, SkipDigits(s, SkipSign(s, pos))))
  }

  // ---- strtod --------------------------------------------------------------------------------

  predicate Digits(s: string) {
    forall i :: 0 <= i < |s| ==> IsDigit(s[i])
  }

  function Natural(s: string): nat
    requires Digits(s)
  {
    if s == "" then 0 else 10 * Natural(s[..|s| - 1]) + (s[|s| - 1] as int - '0' as int)
  }

  function Pow10(n: nat): real {
    if n == 0 then 1.0 else 10.0 * Pow10(n - 1)
  }

  lemma Pow10Positive(n: nat)
    ensures Pow10(n) > 0.0
  {
  }

  /** sign, digits, digits after the point, exponent; without mantissa digits nothing is converted. */
  function Decimal(negative: bool, whole: string, fraction: string, exponent: int): real
    requires Digits(whole) && Digits(fraction)
  {
    if whole == "" && fraction == "" then 0.0
    else
      Pow10Positive(|fraction|);
      Pow10Positive(if exponent < 0 then -exponent else exponent);
      var mantissa := Natural(whole) as real + Natural(fraction) as real / Pow10(|fraction|);
      var scaled := if exponent < 0 then mantissa / Pow10(-exponent) else mantissa * Pow10(exponent);
      if negative then -scaled else scaled
  }

  lemma SkipsDigits(s: string, pos: nat)
    requires pos <= |s|
    ensures Digits(s[pos..SkipDigits(s, pos)])
    decreases |s| - pos
  {
    if pos < |s| && IsDigit(s[pos]) {
      SkipsDigits(s, pos + 1);
    }
  }

  /** The digits behind a point at `pos`; none without a point. */
  function FractionAt(s: string, pos: nat): (digits: string)
    requires pos <= |s|
    ensures Digits(digits)
  {
    if Has(s, pos, '.') then
      SkipsDigits(s, pos + 1);
      s[pos + 1..SkipDigits(s, pos + 1)]
    else ""
  }

  /** The value `strtod` gives to the number-like text between `pos` and `NumberEnd(s, pos)`. */
  function Strtod(s: string, pos: nat): real
    requires pos <= |s|
  {
    var a := SkipSign(s, pos);
    var b := SkipDigits(s, a);
    SkipsDigits(s, a);
    Decimal(a > pos, s[a..b], FractionAt(s, b), ExponentAt(s, SkipFraction(s, b)))
  }

  /** The exponent part from `pos`: 0 without digits. */
  function ExponentAt(s: string, pos: nat): int
    requires pos <= |s|
  {
    if Has(s, pos, 'e') || Has(s, pos, 'E') then
      var from := if Has(s, pos + 1, '+') || Has(s, pos + 1, '-') then pos + 2 else pos + 1;
      SkipsDigits(s, from);
      if Has(s, pos + 1, '-') then 0 - Natural(s[from..SkipDigits(s, from)]) else Natural(s[from..SkipDigits(s, from)])
    else 0
  }

  // ---- the parser ----------------------------------------------------------------------------

  /** The characters of a string literal up to and including its closing quote. */
  function ParseChars(s: string, pos: nat, acc: string): (r: Parsed<string>)
    requires pos <= |s|
    ensures pos <= r.pos <= |s|
    ensures r.result.Ok? ==> pos < r.pos
    decreases |s| - pos
  {
    if pos >= |s| then Parsed(Fail(UnterminatedString), pos)
    else if s[pos] == '"' then Parsed(Ok(acc), pos + 1)
    else if s[pos] != '\\' then ParseChars(s, pos + 1, acc + [s[pos]])
    else if pos + 1 >= |s| then Parsed(Fail(UnterminatedEscape), pos + 1)
    else if !IsEscape(s[pos + 1]) then Parsed(Fail(UnsupportedEscape(s[pos + 1])), pos + 1)
    else ParseChars(s, pos + 2, acc + [Unescape(s[pos + 1])])
  }

  predicate Spells(s: string, pos: nat, word: string) {
    pos + |word| <= |s| && s[pos..pos + |word|] == word
  }

  function ParseBool(s: string, pos: nat): Parsed<Json> {
    if Spells(s, pos, "true") then Parsed(Ok(Bool(true)), pos + 4)
    else if Spells(s, pos, "false") then Parsed(Ok(Bool(false)), pos + 5)
    else Parsed(Fail(InvalidLiteral(pos)), pos)
  }

  function ParseNull(s: string, pos: nat): Parsed<Json> {
    if Spells(s, pos, "null") then Parsed(Ok(Null), pos + 4) else Parsed(Fail(InvalidLiteral(pos)), pos)
  }

  function ParseNumber(s: string, pos: nat): Parsed<Json>
    requires pos <= |s|
  {
    var end := NumberEnd(s, pos);
    if end == pos || s[pos..end] == "-" then Parsed(Fail(InvalidNumber(pos)), end)
    else Parsed(Ok(Number(Strtod(s, pos))), end)
  }

  function ParseString(s: string, pos: nat): (r: Parsed<Json>)
    requires Has(s, pos, '"')
    ensures pos < r.pos <= |s|
  {
    var chars := ParseChars(s, pos + 1, "");
    Parsed(match chars.result case Ok(t) => Ok(String(t)) case Fail(e) => Fail(e), chars.pos)
  }

  function ParseValue(s: string, pos: nat): (r: Parsed<Json>)
    requires pos <= |s|
    ensures pos <= r.pos <= |s|
    ensures r.result.Ok? ==> SkipWs(s, pos) < r.pos
    decreases |s| - pos, 3
  {
    var p := SkipWs(s, pos);
    if p >= |s| then Parsed(Fail(EndOfInput), p)
    else if s[p] == '{' then ParseObject(s, p)
    else if s[p] == '[' then ParseArray(s, p)
    else if s[p] == '"' then ParseString(s, p)
    else if s[p] == 't' || s[p] == 'f' then ParseBool(s, p)
    else if s[p] == 'n' then ParseNull(s, p)
    else if s[p] == '-' || IsDigit(s[p]) then ParseNumber(s, p)
    else Parsed(Fail(UnexpectedCharacter(s[p], p)), p)
  }

  function ParseObject(s: string, pos: nat): (r: Parsed<Json>)
    requires Has(s, pos, '{')
    ensures pos < r.pos <= |s|
    decreases |s| - pos, 2
  {
    var p := SkipWs(s, pos + 1);
    if Has(s, p, '}') then Parsed(Ok(Object(map[])), p + 1) else ParseMembers(s, p, map[])
  }

  /** The key of a member and the colon behind it. */
  function ParseKey(s: string, pos: nat): (r: Parsed<Json>)
    requires pos <= |s|
    ensures pos <= r.pos <= |s| && (r.result.Ok? ==> pos < r.pos)
  {
    var p := SkipWs(s, pos);
    if !Has(s, p, '"') then Parsed(Fail(ExpectedKey(p)), p)
    else
      var key := ParseString(s, p);
      if key.result.Fail? then key
      else
        var q := SkipWs(s, key.pos);
        if !Has(s, q, ':') then Parsed(Fail(ExpectedColon(q)), q) else Parsed(key.result, q + 1)
  }

  /** The members of an object from `pos`, added to those already read; the last of equal keys wins. */
  function ParseMembers(s: string, pos: nat, acc: map<string, Json>): (r: Parsed<Json>)
    requires pos <= |s|
    ensures pos <= r.pos <= |s|
    decreases |s| - pos, 4
  {
    var key := ParseKey(s, pos);
    if key.result.Fail? then key
    else
      var value := ParseValue(s, key.pos);
      if value.result.Fail? then value
      else
        var e := SkipWs(s, value.pos);
        var acc' := acc[AsString(key.result.value) := value.result.value];
        if Has(s, e, ',') then ParseMembers(s, e + 1, acc')
        else if Has(s, e, '}') then Parsed(Ok(Object(acc')), e + 1)
        else Parsed(Fail(ExpectedCommaOrBrace(e)), e)
  }

  function ParseArray(s: string, pos: nat): (r: Parsed<Json>)
    requires Has(s, pos, '[')
    ensures pos < r.pos <= |s|
    decreases |s| - pos, 2
  {
    var p := SkipWs(s, pos + 1);
    if Has(s, p, ']') then Parsed(Ok(Array([])), p + 1) else ParseItems(s, p, [])
  }

  /** The elements of an array from `pos`, added to those already read. */
  function ParseItems(s: string, pos: nat, acc: seq<Json>): (r: Parsed<Json>)
    requires pos <= |s|
    ensures pos <= r.pos <= |s|
    decreases |s| - pos, 4
  {
    var value := ParseValue(s, pos);
    if value.result.Fail? then value
    else
      var e := SkipWs(s, value.pos);
      var acc' := acc + [value.result.value];
      if Has(s, e, ',') then ParseItems(s, e + 1, acc')
      else if Has(s, e, ']') then Parsed(Ok(Array(acc')), e + 1)
      else Parsed(Fail(ExpectedCommaOrBracket(e)), e)
  }

  /** `parse_json`: one value, and nothing but whitespace around it. */
  function ParseJson(s: string): Result<Json> {
    var value := ParseValue(s, SkipWs(s, 0));
    if value.result.Fail? then value.result
    else if SkipWs(s, value.pos) != |s| then Fail(TrailingData)
    else value.result
  }

  class Parser {
    const s: string
    var pos: nat

    constructor (text: string)
      ensures s == text && pos == 0
    {
      s, pos := text, 0;
    }

    method SkipSpaces()
      requires pos <= |s|
      modifies this
      ensures pos == SkipWs(s, old(pos))
    {
      while pos < |s| && IsSpace(s[pos])
        invariant old(pos) <= pos <= |s| && SkipWs(s, pos) == SkipWs(s, old(pos))
        decreases |s| - pos
      {
        pos := pos + 1;
      }
    }

    method DigitRun()
      requires pos <= |s|
      modifies this
      ensures pos == SkipDigits(s, old(pos))
    {
      while pos < |s| && IsDigit(s[pos])
        invariant old(pos) <= pos <= |s| && SkipDigits(s, pos) == SkipDigits(s, old(pos))
        decreases |s| - pos
      {
        pos := pos + 1;
      }
    }

    method Value() returns (r: Result<Json>)
      requires pos <= |s|
      modifies this
      ensures old(pos) <= pos <= |s|
      ensures Parsed(r, pos) == ParseValue(s, old(pos))
      decreases |s| - pos, 3
    {
      SkipSpaces();
      if pos >= |s| { return Fail(EndOfInput); }
      var c := s[pos];
      if c == '{' {
        r := ObjectValue();
      } else if c == '[' {
        r := ArrayValue();
      } else if c == '"' {
        r := StringValue();
      } else if c == 't' || c == 'f' {
        r := BoolValue();
      } else if c == 'n' {
        r := NullValue();
      } else if c == '-' || IsDigit(c) {
        r := NumberValue();
      } else {
        r := Fail(UnexpectedCharacter(c, pos));
      }
    }

    /** A key and the colon behind it. */
    method Key() returns (r: Result<Json>)
      requires pos <= |s|
      modifies this
      ensures old(pos) <= pos <= |s| && (r.Ok? ==> old(pos) < pos)
      ensures Parsed(r, pos) == ParseKey(s, old(pos))
    {
      hide SkipWs;
      SkipSpaces();
      if !Has(s, pos, '"') { return Fail(ExpectedKey(pos)); }
      var key := StringValue();
      if key.Fail? { return key; }
      SkipSpaces();
      if !Has(s, pos, ':') { return Fail(ExpectedColon(pos)); }
      pos := pos + 1;
      r := key;
    }

    method ObjectValue() returns (r: Result<Json>)
      requires Has(s, pos, '{')
      modifies this
      ensures old(pos) < pos <= |s|
      ensures Parsed(r, pos) == ParseObject(s, old(pos))
      decreases |s| - pos, 2
    {
      hide ParseValue, ParseKey, SkipWs;
      pos := pos + 1;
      SkipSpaces();
      if Has(s, pos, '}') {
        pos := pos + 1;
        return Ok(Object(map[]));
      }
      var fields: map<string, Json> := map[];
      while true
        invariant old(pos) < pos <= |s|
        invariant ParseMembers(s, pos, fields) == ParseObject(s, old(pos))
        decreases |s| - pos
      {
        var key := Key();
        if key.Fail? { return key; }
        var value := Value();
        if value.Fail? { return value; }
        fields := fields[AsString(key.value) := value.value];
        SkipSpaces();
        if Has(s, pos, ',') {
          pos := pos + 1;
        } else if Has(s, pos, '}') {
          pos := pos + 1;
          return Ok(Object(fields));
        } else {
          return Fail(ExpectedCommaOrBrace(pos));
        }
      }
    }

    method ArrayValue() returns (r: Result<Json>)
      requires Has(s, pos, '[')
      modifies this
      ensures old(pos) < pos <= |s|
      ensures Parsed(r, pos) == ParseArray(s, old(pos))
      decreases |s| - pos, 2
    {
      hide ParseValue, SkipWs;
      pos := pos + 1;
      SkipSpaces();
      if Has(s, pos, ']') {
        pos := pos + 1;
        return Ok(Array([]));
      }
      var items: seq<Json> := [];
      while true
        invariant old(pos) < pos <= |s|
        invariant ParseItems(s, pos, items) == ParseArray(s, old(pos))
        decreases |s| - pos
      {
        var value := Value();
        if value.Fail? { return value; }
        items := items + [value.value];
        SkipSpaces();
        if Has(s, pos, ',') {
          pos := pos + 1;
        } else if Has(s, pos, ']') {
          pos := pos + 1;
          return Ok(Array(items));
        } else {
          return Fail(ExpectedCommaOrBracket(pos));
        }
      }
    }

    method StringValue() returns (r: Result<Json>)
      requires Has(s, pos, '"')
      modifies this
      ensures old(pos) < pos <= |s|
      ensures Parsed(r, pos) == ParseString(s, old(pos))
      decreases |s| - pos, 1
    {
      pos := pos + 1;
      var result: string := "";
      while pos < |s| && s[pos] != '"'
        invariant old(pos) < pos <= |s|
        invariant ParseChars(s, pos, result) == ParseChars(s, old(pos) + 1, "")
        decreases |s| - pos
      {
        var c := s[pos];
        if c == '\\' {
          pos := pos + 1;
          if pos >= |s| { return Fail(UnterminatedEscape); }
          if !IsEscape(s[pos]) { return Fail(UnsupportedEscape(s[pos])); }
          result := result + [Unescape(s[pos])];
          pos := pos + 1;
        } else {
          result := result + [c];
          pos := pos + 1;
        }
      }
      if pos >= |s| { return Fail(UnterminatedString); }
      pos := pos + 1;
      r := Ok(String(result));
    }

    method BoolValue() returns (r: Result<Json>)
      requires pos <= |s|
      modifies this
      ensures old(pos) <= pos <= |s|
      ensures Parsed(r, pos) == ParseBool(s, old(pos))
      decreases |s| - pos, 1
    {
      if Spells(s, pos, "true") {
        pos := pos + 4;
        return Ok(Bool(true));
      }
      if Spells(s, pos, "false") {
        pos := pos + 5;
        return Ok(Bool(false));
      }
      r := Fail(InvalidLiteral(pos));
    }

    method NullValue() returns (r: Result<Json>)
      requires pos <= |s|
      modifies this
      ensures old(pos) <= pos <= |s|
      ensures Parsed(r, pos) == ParseNull(s, old(pos))
      decreases |s| - pos, 1
    {
      if Spells(s, pos, "null") {
        pos := pos + 4;
        return Ok(Null);
      }
      r := Fail(InvalidLiteral(pos));
    }

    method FractionPart()
      requires pos <= |s|
      modifies this
      ensures pos == SkipFraction(s, old(pos))
    {
      if Has(s, pos, '.') {
        pos := pos + 1;
        DigitRun();
      }
    }

    method ExponentPart()
      requires pos <= |s|
      modifies this
      ensures pos == SkipExponent(s, old(pos))
    {
      if Has(s, pos, 'e') || Has(s, pos, 'E') {
        pos := pos + 1;
        if Has(s, pos, '+') || Has(s, pos, '-') { pos := pos + 1; }
        DigitRun();
      }
    }

    method NumberValue() returns (r: Result<Json>)
      requires pos <= |s|
      modifies this
      ensures old(pos) <= pos <= |s|
      ensures Parsed(r, pos) == ParseNumber(s, old(pos))
      decreases |s| - pos, 1
    {
      hide Strtod, SkipDigits, SkipFraction, SkipExponent;
      var start := pos;
      if Has(s, pos, '-') { pos := pos + 1; }
      DigitRun();
      FractionPart();
      ExponentPart();
      if pos == start || s[start..pos] == "-" { return Fail(InvalidNumber(start)); }
      r := Ok(Number(Strtod(s, start)));
    }

    /** On success the whole text was consumed. */
    method Parse() returns (r: Result<Json>)
      requires pos == 0
      modifies this
      ensures pos <= |s| && r == ParseJson(s)
      ensures r.Ok? ==> pos == |s|
    {
      SkipSpaces();
      r := Value();
      if r.Fail? { return; }
      SkipSpaces();
      if pos != |s| { return Fail(TrailingData); }
    }
  }
}
