/** The language the JSON parser accepts, as syntax trees with their text and their value, and the
    proof that the parser accepts exactly that language with exactly those values. */
module JsonGrammar {
  import opened Json
  import opened Tokens

  datatype Piece = Raw(c: char) | Escaped(c: char)

  datatype Exponent = NoExponent | Exponent(mark: char, sign: string, digits: string)

  /** `-`? digits (`.` digits)? exponent?, where each run of digits may be empty. */
  datatype Numeral = Numeral(negative: bool, whole: string, point: bool, fraction: string, exponent: Exponent)

  datatype Tree =
    | NullTree
    | BoolTree(flag: bool)
    | NumberTree(numeral: Numeral)
    | StringTree(pieces: seq<Piece>)
    | EmptyArray(blank: string)
    | ArrayTree(elements: Elements)
    | EmptyObject(blank: string)
    | ObjectTree(members: Members)

  datatype Element = Element(before: string, value: Tree, after: string)

  datatype Elements = LastElement(element: Element) | MoreElements(element: Element, rest: Elements)

  datatype Member = Member(
    before: string, key: seq<Piece>, afterKey: string, beforeValue: string, value: Tree, after: string)

  datatype Members = LastMember(member: Member) | MoreMembers(member: Member, rest: Members)

  // ---- texts ---------------------------------------------------------------------------------

  function PiecesText(ps: seq<Piece>): string {
    if ps == [] then "" else (if ps[0].Raw? then [ps[0].c] else ['\\', ps[0].c]) + PiecesText(ps[1..])
  }

  function Quoted(ps: seq<Piece>): string {
    "\"" + (PiecesText(ps) + "\"")
  }

  function ExponentText(e: Exponent): string {
    match e case NoExponent => "" case Exponent(mark, sign, digits) => [mark] + (sign + digits)
  }

  function NumeralText(n: Numeral): string {
    (if n.negative then "-" else "") + (n.whole + ((if n.point then "." + n.fraction else "") + ExponentText(n.exponent)))
  }

  function Text(t: Tree): string {
    match t
    case NullTree => "null"
    case BoolTree(flag) => if flag then "true" else "false"
    case NumberTree(n) => NumeralText(n)
    case StringTree(ps) => Quoted(ps)
    case EmptyArray(blank) => "[" + (blank + "]")
    case ArrayTree(es) => "[" + (ElementsText(es) + "]")
    case EmptyObject(blank) => "{" + (blank + "}")
    case ObjectTree(ms) => "{" + (MembersText(ms) + "}")
  }

  function ElementText(e: Element): string {
    e.before + (Text(e.value) + e.after)
  }

  function ElementsText(es: Elements): string {
    match es
    case LastElement(e) => ElementText(e)
    case MoreElements(e, rest) => ElementText(e) + ("," + ElementsText(rest))
  }

  function MemberText(m: Member): string {
    m.before + (Quoted(m.key) + (m.afterKey + (":" + (m.beforeValue + (Text(m.value) + m.after)))))
  }

  function MembersText(ms: Members): string {
    match ms
    case LastMember(m) => MemberText(m)
    case MoreMembers(m, rest) => MemberText(m) + ("," + MembersText(rest))
  }

  // ---- values --------------------------------------------------------------------------------

  function PieceValue(p: Piece): char {
    if p.Escaped? && IsEscape(p.c) then Unescape(p.c) else p.c
  }

  function PiecesValue(ps: seq<Piece>): string {
    if ps == [] then "" else [PieceValue(ps[0])] + PiecesValue(ps[1..])
  }

  function ExponentValue(e: Exponent): int {
    if e.NoExponent? || !GoodExponent(e) then 0
    else if e.sign == "-" then 0 - Natural(e.digits) else Natural(e.digits)
  }

  function NumeralValue(n: Numeral): real {
    if GoodNumeral(n) then Decimal(n.negative, n.whole, n.fraction, ExponentValue(n.exponent)) else 0.0
  }

  function Value(t: Tree): Json {
    match t
    case NullTree => Null
    case BoolTree(flag) => Bool(flag)
    case NumberTree(n) => Number(NumeralValue(n))
    case StringTree(ps) => String(PiecesValue(ps))
    case EmptyArray(_) => Array([])
    case ArrayTree(es) => Array(Values(es))
    case EmptyObject(_) => Object(map[])
    case ObjectTree(ms) => Object(Entered(map[], ms))
  }

  function Values(es: Elements): seq<Json> {
    match es
    case LastElement(e) => [Value(e.value)]
    case MoreElements(e, rest) => [Value(e.value)] + Values(rest)
  }

  /** The members entered from left to right, so that the last of equal keys wins. */
  function Entered(acc: map<string, Json>, ms: Members): map<string, Json>
    decreases ms
  {
    match ms
    case LastMember(m) => acc[PiecesValue(m.key) := Value(m.value)]
    case MoreMembers(m, rest) => Entered(acc[PiecesValue(m.key) := Value(m.value)], rest)
  }

  // ---- well-formed trees ---------------------------------------------------------------------

  predicate Blank(ws: string) {
    forall i :: 0 <= i < |ws| ==> IsSpace(ws[i])
  }

  predicate GoodPieces(ps: seq<Piece>) {
    forall i :: 0 <= i < |ps| ==> if ps[i].Raw? then ps[i].c != '"' && ps[i].c != '\\' else IsEscape(ps[i].c)
  }

  predicate GoodExponent(e: Exponent) {
    e.Exponent? ==> (e.mark == 'e' || e.mark == 'E') && (e.sign == "" || e.sign == "+" || e.sign == "-") && Digits(e.digits)
  }

  /** Anything that starts with a sign or a digit, except a sign alone. */
  predicate GoodNumeral(n: Numeral) {
    && Digits(n.whole) && Digits(n.fraction) && GoodExponent(n.exponent)
    && (!n.point ==> n.fraction == "")
    && (n.negative || n.whole != "")
    && (n.whole != "" || n.point || n.exponent.Exponent?)
  }

  predicate Good(t: Tree) {
    match t
    case NumberTree(n) => GoodNumeral(n)
    case StringTree(ps) => GoodPieces(ps)
    case EmptyArray(blank) => Blank(blank)
    case ArrayTree(es) => GoodElements(es)
    case EmptyObject(blank) => Blank(blank)
    case ObjectTree(ms) => GoodMembers(ms)
    case _ => true
  }

  predicate GoodElements(es: Elements) {
    && Blank(es.element.before) && Good(es.element.value) && Blank(es.element.after)
    && (es.MoreElements? ==> GoodElements(es.rest))
  }

  predicate GoodMember(m: Member) {
    Blank(m.before) && GoodPieces(m.key) && Blank(m.afterKey) && Blank(m.beforeValue) && Good(m.value) && Blank(m.after)
  }

  predicate GoodMembers(ms: Members) {
    GoodMember(ms.member) && (ms.MoreMembers? ==> GoodMembers(ms.rest))
  }

  // ---- text at a position --------------------------------------------------------------------

  lemma SpellsParts(s: string, pos: nat, a: string, b: string)
    ensures Spells(s, pos, a + b) <==> Spells(s, pos, a) && Spells(s, pos + |a|, b)
  {
    if Spells(s, pos, a) && Spells(s, pos + |a|, b) {
      assert s[pos..pos + |a + b|] == s[pos..pos + |a|] + s[pos + |a|..pos + |a| + |b|];
    }
    if Spells(s, pos, a + b) {
      assert s[pos..pos + |a|] == s[pos..pos + |a + b|][..|a|];
      assert s[pos + |a|..pos + |a| + |b|] == s[pos..pos + |a + b|][|a|..];
    }
  }

  lemma SpellsChar(s: string, pos: nat, c: char)
    ensures Spells(s, pos, [c]) <==> Has(s, pos, c)
  {
    if Has(s, pos, c) {
      assert s[pos..pos + 1] == [c];
    }
    if Spells(s, pos, [c]) {
      assert s[pos..pos + 1][0] == c;
    }
  }

  lemma {:induction false} SkipsBlank(s: string, pos: nat, ws: string)
    requires Spells(s, pos, ws) && Blank(ws)
    requires pos + |ws| < |s| ==> !IsSpace(s[pos + |ws|])
    ensures SkipWs(s, pos) == pos + |ws|
    decreases |ws|
  {
    if ws != "" {
      assert ws == [ws[0]] + ws[1..];
      SpellsParts(s, pos, [ws[0]], ws[1..]);
      SpellsChar(s, pos, ws[0]);
      SkipsBlank(s, pos + 1, ws[1..]);
    }
  }

  lemma {:induction false} SkipWsIsBlank(s: string, pos: nat)
    requires pos <= |s|
    ensures Blank(s[pos..SkipWs(s, pos)])
    ensures SkipWs(s, pos) < |s| ==> !IsSpace(s[SkipWs(s, pos)])
    ensures SkipWs(s, SkipWs(s, pos)) == SkipWs(s, pos)
    decreases |s| - pos
  {
    if pos < |s| && IsSpace(s[pos]) {
      SkipWsIsBlank(s, pos + 1);
    }
  }

  lemma {:induction false} SkipsDigitRun(s: string, pos: nat, ds: string)
    requires Spells(s, pos, ds) && Digits(ds)
    requires pos + |ds| < |s| ==> !IsDigit(s[pos + |ds|])
    ensures SkipDigits(s, pos) == pos + |ds|
    decreases |ds|
  {
    if ds != "" {
      assert ds == [ds[0]] + ds[1..];
      SpellsParts(s, pos, [ds[0]], ds[1..]);
      SpellsChar(s, pos, ds[0]);
      SkipsDigitRun(s, pos + 1, ds[1..]);
    }
  }

  /** What may follow a value. */
  predicate Stops(s: string, pos: nat) {
    pos >= |s| || IsSpace(s[pos]) || s[pos] == ',' || s[pos] == ']' || s[pos] == '}'
  }

  /** After blanks, a stop character. */
  lemma BlankStops(s: string, pos: nat, ws: string, c: char)
    requires Spells(s, pos, ws + [c]) && Blank(ws) && (c == ',' || c == ']' || c == '}')
    ensures Stops(s, pos) && SkipWs(s, pos) == pos + |ws| && Has(s, pos + |ws|, c)
  {
    SpellsParts(s, pos, ws, [c]);
    SpellsChar(s, pos + |ws|, c);
    SkipsBlank(s, pos, ws);
    if ws != "" {
      assert s[pos] == s[pos..pos + |ws|][0] == ws[0];
    }
  }

  // ---- every tree is accepted ----------------------------------------------------------------

  lemma {:induction false} CharsComplete(s: string, pos: nat, ps: seq<Piece>, acc: string)
    requires GoodPieces(ps) && Spells(s, pos, PiecesText(ps) + "\"")
    ensures ParseChars(s, pos, acc) == Parsed(Ok(acc + PiecesValue(ps)), pos + |PiecesText(ps)| + 1)
    decreases |ps|
  {
    if ps == [] {
      SpellsChar(s, pos, '"');
      assert PiecesText(ps) + "\"" == "\"";
      assert acc + PiecesValue(ps) == acc;
    } else {
      var head := if ps[0].Raw? then [ps[0].c] else ['\\', ps[0].c];
      var tail := PiecesText(ps[1..]) + "\"";
      assert PiecesText(ps) + "\"" == head + tail;
      SpellsParts(s, pos, head, tail);
      if ps[0].Raw? {
        SpellsChar(s, pos, ps[0].c);
      } else {
        SpellsParts(s, pos, ['\\'], [ps[0].c]);
        assert head == ['\\'] + [ps[0].c];
        SpellsChar(s, pos, '\\');
        SpellsChar(s, pos + 1, ps[0].c);
      }
      var acc' := acc + [PieceValue(ps[0])];
      CharsComplete(s, pos + |head|, ps[1..], acc');
      assert acc' + PiecesValue(ps[1..]) == acc + PiecesValue(ps);
    }
  }

  lemma StringComplete(s: string, pos: nat, ps: seq<Piece>)
    requires GoodPieces(ps) && Spells(s, pos, Quoted(ps))
    ensures Has(s, pos, '"') && ParseString(s, pos) == Parsed(Ok(String(PiecesValue(ps))), pos + |Quoted(ps)|)
  {
    SpellsParts(s, pos, "\"", PiecesText(ps) + "\"");
    SpellsChar(s, pos, '"');
    CharsComplete(s, pos + 1, ps, "");
    assert "" + PiecesValue(ps) == PiecesValue(ps);
  }

  /** What follows a position is no digit, sign, point or exponent mark when it stops a value. */
  lemma StopIsOther(s: string, pos: nat)
    requires Stops(s, pos)
    ensures pos < |s| ==> !IsDigit(s[pos]) && s[pos] !in ".eE+-"
  {
  }

  lemma SpellsRun(s: string, pos: nat, t: string)
    requires Spells(s, pos, t)
    ensures pos + |t| <= |s| && s[pos..pos + |t|] == t
    ensures t != "" ==> s[pos] == t[0]
  {
    if t != "" {
      assert s[pos..pos + |t|][0] == s[pos];
    }
  }

  lemma SignAt(s: string, pos: nat, sign: string, digits: string)
    requires sign == "" || sign == "+" || sign == "-"
    requires Spells(s, pos, sign) && Spells(s, pos + |sign|, digits) && Digits(digits)
    requires Stops(s, pos + |sign| + |digits|)
    ensures Has(s, pos, '-') <==> sign == "-"
    ensures Has(s, pos, '+') <==> sign == "+"
  {
    hide Spells;
    SpellsRun(s, pos, sign);
    SpellsRun(s, pos + |sign|, digits);
    StopIsOther(s, pos + |sign| + |digits|);
  }

  lemma ExponentComplete(s: string, pos: nat, e: Exponent)
    requires GoodExponent(e) && Spells(s, pos, ExponentText(e)) && Stops(s, pos + |ExponentText(e)|)
    ensures pos <= |s| && SkipExponent(s, pos) == pos + |ExponentText(e)| && ExponentAt(s, pos) == ExponentValue(e)
    ensures pos < |s| ==> !IsDigit(s[pos]) && s[pos] != '.'
  {
    hide Spells, Natural, SkipDigits, Stops, Digits, SkipExponent, ExponentAt, ExponentValue, ExponentText;
    if e.Exponent? {
      ExponentParts(s, pos, e);
      ExponentReads(s, pos, e);
    } else {
      NoExponentReads(s, pos);
    }
  }

  lemma NoExponentReads(s: string, pos: nat)
    requires Spells(s, pos, ExponentText(NoExponent)) && Stops(s, pos + |ExponentText(NoExponent)|)
    ensures ExponentText(NoExponent) == "" && ExponentValue(NoExponent) == 0
    ensures pos <= |s| && SkipExponent(s, pos) == pos && ExponentAt(s, pos) == 0
    ensures pos < |s| ==> !IsDigit(s[pos]) && s[pos] != '.'
  {
    hide Spells, Stops;
    StopIsOther(s, pos);
    SpellsRun(s, pos, "");
  }

  /** The mark, the sign and the digits of an exponent, where they are. */
  ghost predicate ExponentStands(s: string, pos: nat, e: Exponent)
    requires e.Exponent?
  {
    var from := pos + 1 + |e.sign|;
    && Has(s, pos, e.mark) && (Has(s, pos + 1, '-') <==> e.sign == "-") && (Has(s, pos + 1, '+') <==> e.sign == "+")
    && from <= |s| && SkipDigits(s, from) == from + |e.digits| <= |s| && s[from..from + |e.digits|] == e.digits
  }

  lemma ExponentReads(s: string, pos: nat, e: Exponent)
    requires e.Exponent? && GoodExponent(e) && ExponentStands(s, pos, e)
    ensures SkipExponent(s, pos) == pos + 1 + |e.sign| + |e.digits| && ExponentAt(s, pos) == ExponentValue(e)
    ensures !IsDigit(s[pos]) && s[pos] != '.'
  {
    hide Natural, SkipDigits, Digits;
    if e.sign == "" {
      assert |e.sign| == 0;
    } else {
      assert |e.sign| == 1;
    }
  }

  lemma ExponentParts(s: string, pos: nat, e: Exponent)
    requires e.Exponent? && GoodExponent(e) && Spells(s, pos, ExponentText(e)) && Stops(s, pos + |ExponentText(e)|)
    ensures |ExponentText(e)| == 1 + |e.sign| + |e.digits| && ExponentStands(s, pos, e)
  {
    hide Spells, Natural, SkipDigits, Stops, Digits;
    var from := pos + 1 + |e.sign|;
    SpellsParts(s, pos, [e.mark], e.sign + e.digits);
    SpellsParts(s, pos + 1, e.sign, e.digits);
    SpellsChar(s, pos, e.mark);
    SignAt(s, pos + 1, e.sign, e.digits);
    DigitsStand(s, from, e.digits);
  }

  lemma DigitsStand(s: string, from: nat, digits: string)
    requires Spells(s, from, digits) && Digits(digits) && Stops(s, from + |digits|)
    ensures from <= |s| && SkipDigits(s, from) == from + |digits| <= |s| && s[from..from + |digits|] == digits
  {
    hide Spells, SkipDigits, Stops;
    StopIsOther(s, from + |digits|);
    SkipsDigitRun(s, from, digits);
    SpellsRun(s, from, digits);
  }

  function FractionText(n: Numeral): string {
    if n.point then "." + n.fraction else ""
  }

  lemma FractionComplete(s: string, pos: nat, n: Numeral)
    requires GoodNumeral(n) && Spells(s, pos, FractionText(n))
    requires var end := pos + |FractionText(n)|; end < |s| ==> !IsDigit(s[end]) && s[end] != '.'
    ensures pos <= |s| && SkipFraction(s, pos) == pos + |FractionText(n)| && FractionAt(s, pos) == n.fraction
    ensures pos < |s| ==> !IsDigit(s[pos])
  {
    hide Spells, SkipDigits;
    SpellsRun(s, pos, FractionText(n));
    if n.point {
      SpellsParts(s, pos, ".", n.fraction);
      SpellsRun(s, pos + 1, n.fraction);
      SkipsDigitRun(s, pos + 1, n.fraction);
    }
  }

  /** Where the parts of a numeral end, and what they are. */
  lemma NumeralParts(s: string, pos: nat, n: Numeral)
    requires GoodNumeral(n) && Spells(s, pos, NumeralText(n)) && Stops(s, pos + |NumeralText(n)|)
    ensures
      var a := pos + (if n.negative then 1 else 0);
      var b := a + |n.whole|;
      var c := b + |FractionText(n)|;
      && SkipSign(s, pos) == a && a <= b <= c <= |s| && SkipDigits(s, a) == b && SkipFraction(s, b) == c
      && SkipExponent(s, c) == pos + |NumeralText(n)|
      && s[a..b] == n.whole && FractionAt(s, b) == n.fraction && ExponentAt(s, c) == ExponentValue(n.exponent)
    ensures pos < |s| && (s[pos] == '-' <==> n.negative) && (!n.negative ==> IsDigit(s[pos]))
  {
    hide Spells, Decimal, ExponentAt, SkipExponent, ExponentValue, Stops, SkipDigits, SkipSign, ExponentText, FractionText, SkipFraction,
         FractionAt, NumeralText, GoodNumeral;
    var a := pos + (if n.negative then 1 else 0);
    var b := a + |n.whole|;
    NumeralStands(s, pos, n);
    GoodParts(n);
    ExponentComplete(s, b + |FractionText(n)|, n.exponent);
    FractionComplete(s, b, n);
    WholeStands(s, pos, n);
  }

  lemma GoodParts(n: Numeral)
    requires GoodNumeral(n)
    ensures GoodExponent(n.exponent)
  {
  }

  function SignText(n: Numeral): string {
    if n.negative then "-" else ""
  }

  /** The parts of a numeral stand one behind the other. */
  lemma NumeralStands(s: string, pos: nat, n: Numeral)
    requires Spells(s, pos, NumeralText(n))
    ensures
      var a := pos + (if n.negative then 1 else 0);
      var b := a + |n.whole|;
      var c := b + |FractionText(n)|;
      && Spells(s, pos, SignText(n)) && Spells(s, a, n.whole) && Spells(s, b, FractionText(n)) && Spells(s, c, ExponentText(n.exponent))
      && c + |ExponentText(n.exponent)| == pos + |NumeralText(n)|
  {
    hide Spells, ExponentText, FractionText;
    var a := pos + |SignText(n)|;
    NumeralTextParts(n);
    SpellsParts(s, pos, SignText(n), n.whole + (FractionText(n) + ExponentText(n.exponent)));
    SpellsParts(s, a, n.whole, FractionText(n) + ExponentText(n.exponent));
    SpellsParts(s, a + |n.whole|, FractionText(n), ExponentText(n.exponent));
  }

  lemma WholeStands(s: string, pos: nat, n: Numeral)
    requires GoodNumeral(n) && Spells(s, pos, SignText(n)) && Spells(s, pos + (if n.negative then 1 else 0), n.whole)
    requires var b := pos + (if n.negative then 1 else 0) + |n.whole|; b < |s| ==> !IsDigit(s[b])
    ensures
      var a := pos + (if n.negative then 1 else 0);
      var b := a + |n.whole|;
      pos <= |s| && SkipSign(s, pos) == a && a <= b <= |s| && SkipDigits(s, a) == b && s[a..b] == n.whole
    ensures pos < |s| && (s[pos] == '-' <==> n.negative) && (!n.negative ==> IsDigit(s[pos]))
  {
    hide Spells, SkipDigits;
    var a := pos + (if n.negative then 1 else 0);
    SpellsRun(s, pos, SignText(n));
    SpellsRun(s, a, n.whole);
    SkipsDigitRun(s, a, n.whole);
  }

  lemma NumeralTextParts(n: Numeral)
    ensures NumeralText(n) == SignText(n) + (n.whole + (FractionText(n) + ExponentText(n.exponent)))
  {
  }

  lemma NumberComplete(s: string, pos: nat, n: Numeral)
    requires GoodNumeral(n) && Spells(s, pos, NumeralText(n)) && Stops(s, pos + |NumeralText(n)|)
    ensures pos < |s| && (s[pos] == '-' || IsDigit(s[pos]))
    ensures ParseNumber(s, pos) == Parsed(Ok(Number(NumeralValue(n))), pos + |NumeralText(n)|)
  {
    hide Spells, Stops, NumberEnd, Strtod, NumeralText, NumeralValue, GoodNumeral;
    NumeralEnds(s, pos, n);
    SignAlone(s, pos, n, NumberEnd(s, pos));
    StrtodOf(s, pos, n);
  }

  lemma NumeralEnds(s: string, pos: nat, n: Numeral)
    requires GoodNumeral(n) && Spells(s, pos, NumeralText(n)) && Stops(s, pos + |NumeralText(n)|)
    ensures pos < |s| && NumberEnd(s, pos) == pos + |NumeralText(n)|
    ensures pos < NumberEnd(s, pos) && (s[pos] == '-' <==> n.negative) && (s[pos] == '-' || IsDigit(s[pos]))
  {
    hide Spells, Decimal, ExponentAt, ExponentValue, FractionAt, Stops, SkipSign, SkipDigits, SkipFraction, SkipExponent, Digits;
    NumeralParts(s, pos, n);
  }

  lemma SignAlone(s: string, pos: nat, n: Numeral, end: nat)
    requires pos < end == pos + |NumeralText(n)| <= |s| && GoodNumeral(n) && (s[pos] == '-' <==> n.negative)
    ensures s[pos..end] != "-"
  {
    if n.negative {
      assert |NumeralText(n)| > 1;
      assert |s[pos..end]| > 1;
    } else {
      assert s[pos..end][0] == s[pos];
    }
  }

  lemma StrtodOf(s: string, pos: nat, n: Numeral)
    requires GoodNumeral(n) && Spells(s, pos, NumeralText(n)) && Stops(s, pos + |NumeralText(n)|)
    ensures pos <= |s| && Strtod(s, pos) == NumeralValue(n)
  {
    hide Spells, Decimal, ExponentAt, ExponentValue, Stops, SkipSign, SkipDigits, SkipFraction, SkipExponent, FractionAt, FractionText, GoodNumeral,
         NumeralText;
    NumeralParts(s, pos, n);
  }

  /** Leading blanks make no difference to the parsing functions that skip them first. */
  lemma ValueSkipsBlank(s: string, pos: nat)
    requires pos <= |s|
    ensures ParseValue(s, SkipWs(s, pos)) == ParseValue(s, pos)
  {
    SkipWsIsBlank(s, pos);
  }

  lemma ItemsSkipBlank(s: string, pos: nat, acc: seq<Json>)
    requires pos <= |s|
    ensures ParseItems(s, SkipWs(s, pos), acc) == ParseItems(s, pos, acc)
  {
    hide ParseValue;
    ValueSkipsBlank(s, pos);
  }

  lemma MembersSkipBlank(s: string, pos: nat, acc: map<string, Json>)
    requires pos <= |s|
    ensures ParseMembers(s, SkipWs(s, pos), acc) == ParseMembers(s, pos, acc)
  {
    hide ParseValue, ParseString;
    SkipWsIsBlank(s, pos);
  }

  lemma TextStarts(t: Tree)
    requires Good(t)
    ensures Text(t) != "" && !IsSpace(Text(t)[0])
  {
    match t {
      case NumberTree(n) =>
        if !n.negative { assert IsDigit(n.whole[0]) && NumeralText(n)[0] == n.whole[0]; }
      case _ =>
    }
  }

  lemma FirstChar(s: string, pos: nat, t: string)
    requires Spells(s, pos, t) && t != ""
    ensures pos < |s| && s[pos] == t[0]
  {
    assert s[pos..pos + |t|][0] == s[pos];
  }

  lemma {:induction false} ValueComplete(s: string, pos: nat, t: Tree)
    requires Good(t) && Spells(s, pos, Text(t)) && Stops(s, pos + |Text(t)|)
    ensures pos <= |s| && ParseValue(s, pos) == Parsed(Ok(Value(t)), pos + |Text(t)|)
    decreases t, 0
  {
    hide Spells, ParseItems, ParseMembers, ParseObject, ParseArray, ParseNumber, ParseString, ElementsText, MembersText, Quoted, NumeralText, GoodNumeral, GoodMembers, GoodElements, Values, Entered, PiecesValue, NumeralValue;
    TextStarts(t);
    FirstChar(s, pos, Text(t));
    assert SkipWs(s, pos) == pos;
    match t {
      case NullTree =>
      case BoolTree(flag) => if !flag { FalseIsNotTrue(s, pos); }
      case NumberTree(n) => NumberComplete(s, pos, n);
      case StringTree(ps) => StringComplete(s, pos, ps);
      case EmptyArray(blank) =>
        EmptyArrayComplete(s, pos, blank);
      case ArrayTree(es) =>
        SpellsParts(s, pos, "[", ElementsText(es) + "]");
        ElementsComplete(s, pos + 1, es, []);
        ArrayStart(s, pos, es);
        assert [] + Values(es) == Values(es);
      case EmptyObject(blank) =>
        EmptyObjectComplete(s, pos, blank);
      case ObjectTree(ms) =>
        SpellsParts(s, pos, "{", MembersText(ms) + "}");
        MembersComplete(s, pos + 1, ms, map[]);
        ObjectStart(s, pos, ms);
    }
  }

  lemma EmptyArrayComplete(s: string, pos: nat, blank: string)
    requires Blank(blank) && Spells(s, pos, "[" + (blank + "]"))
    ensures Has(s, pos, '[') && ParseArray(s, pos) == Parsed(Ok(Array([])), pos + |blank| + 2)
  {
    hide ParseItems, SkipWs, Spells;
    SpellsParts(s, pos, "[", blank + "]");
    SpellsChar(s, pos, '[');
    BlankStops(s, pos + 1, blank, ']');
  }

  lemma EmptyObjectComplete(s: string, pos: nat, blank: string)
    requires Blank(blank) && Spells(s, pos, "{" + (blank + "}"))
    ensures Has(s, pos, '{') && ParseObject(s, pos) == Parsed(Ok(Object(map[])), pos + |blank| + 2)
  {
    hide ParseMembers, SkipWs, Spells;
    SpellsParts(s, pos, "{", blank + "}");
    SpellsChar(s, pos, '{');
    BlankStops(s, pos + 1, blank, '}');
  }

  lemma FalseIsNotTrue(s: string, pos: nat)
    requires Spells(s, pos, "false")
    ensures !Spells(s, pos, "true")
  {
    FirstChar(s, pos, "false");
    if Spells(s, pos, "true") { FirstChar(s, pos, "true"); }
  }

  /** A non-empty array does not look empty, and its elements may be read from behind the bracket. */
  lemma ArrayStart(s: string, pos: nat, es: Elements)
    requires GoodElements(es) && Has(s, pos, '[') && Spells(s, pos + 1, ElementsText(es) + "]")
    ensures ParseArray(s, pos) == ParseItems(s, pos + 1, [])
  {
    hide Spells, SkipWs, ParseValue, ParseItems, Text;
    var e := es.element;
    var after := ElementsText(es)[|e.before + Text(e.value)|..] + "]";
    assert ElementsText(es) + "]" == e.before + (Text(e.value) + after);
    TextStarts(e.value);
    SpellsParts(s, pos + 1, e.before, Text(e.value) + after);
    SpellsParts(s, pos + 1 + |e.before|, Text(e.value), after);
    FirstChar(s, pos + 1 + |e.before|, Text(e.value));
    SkipsBlank(s, pos + 1, e.before);
    NoBracket(e.value);
    ItemsSkipBlank(s, pos + 1, []);
  }

  lemma NoBracket(t: Tree)
    requires Good(t)
    ensures Text(t) != "" && Text(t)[0] != ']' && Text(t)[0] != '}'
  {
    TextStarts(t);
    match t {
      case NumberTree(n) =>
        if !n.negative { assert IsDigit(n.whole[0]) && NumeralText(n)[0] == n.whole[0]; }
      case _ =>
    }
  }

  /** A non-empty object does not look empty, and its members may be read from behind the brace. */
  lemma ObjectStart(s: string, pos: nat, ms: Members)
    requires GoodMembers(ms) && Has(s, pos, '{') && Spells(s, pos + 1, MembersText(ms) + "}")
    ensures ParseObject(s, pos) == ParseMembers(s, pos + 1, map[])
  {
    hide Spells, SkipWs, ParseMembers, PiecesText, Text;
    var m := ms.member;
    var after := MembersText(ms)[|m.before|..] + "}";
    assert MembersText(ms) + "}" == m.before + after;
    SpellsParts(s, pos + 1, m.before, after);
    assert after[0] == '"';
    FirstChar(s, pos + 1 + |m.before|, after);
    SkipsBlank(s, pos + 1, m.before);
    MembersSkipBlank(s, pos + 1, map[]);
  }

  lemma {:induction false} ElementsComplete(s: string, pos: nat, es: Elements, acc: seq<Json>)
    requires GoodElements(es) && Spells(s, pos, ElementsText(es) + "]")
    ensures pos <= |s| && ParseItems(s, pos, acc) == Parsed(Ok(Array(acc + Values(es))), pos + |ElementsText(es)| + 1)
    decreases es, 1
  {
    hide Spells, SkipWs, ParseValue, Text, Good, Value, Blank;
    var e := es.element;
    var tail := if es.LastElement? then "]" else "," + (ElementsText(es.rest) + "]");
    assert ElementsText(es) + "]" == e.before + (Text(e.value) + (e.after + tail));
    ElementComplete(s, pos, e, tail);
    var end := pos + |ElementText(e)|;
    var acc' := acc + [Value(e.value)];
    if es.MoreElements? {
      SpellsParts(s, end, ",", ElementsText(es.rest) + "]");
      ElementsComplete(s, end + 1, es.rest, acc');
      assert acc' + Values(es.rest) == acc + Values(es);
    }
  }

  /** One element: the value is read, and the blanks behind it lead to the separator. */
  lemma {:induction false} ElementComplete(s: string, pos: nat, e: Element, tail: string)
    requires Blank(e.before) && Good(e.value) && Blank(e.after)
    requires Spells(s, pos, e.before + (Text(e.value) + (e.after + tail)))
    requires tail != "" && (tail[0] == ',' || tail[0] == ']' || tail[0] == '}')
    ensures pos <= |s|
    ensures
      var r, end := ParseValue(s, pos), pos + |ElementText(e)|;
      r.result == Ok(Value(e.value)) && SkipWs(s, r.pos) == end && Has(s, end, tail[0]) && Spells(s, end, tail)
    decreases e.value, 1
  {
    hide Spells, SkipWs, ParseValue, Text, Good, Value, Blank;
    var here := pos + |e.before|;
    var end := here + |Text(e.value)|;
    SpellsParts(s, pos, e.before, Text(e.value) + (e.after + tail));
    SpellsParts(s, here, Text(e.value), e.after + tail);
    SpellsParts(s, end, e.after, tail);
    assert e.after + tail == (e.after + [tail[0]]) + tail[1..];
    SpellsParts(s, end, e.after + [tail[0]], tail[1..]);
    BlankStops(s, end, e.after, tail[0]);
    ValueComplete(s, here, e.value);
    TextStarts(e.value);
    FirstChar(s, here, Text(e.value));
    SkipsBlank(s, pos, e.before);
    ValueSkipsBlank(s, pos);
  }

  lemma MemberTail(m: Member, tail: string)
    ensures MemberText(m) + tail
         == m.before + (Quoted(m.key) + (m.afterKey + (":" + (m.beforeValue + (Text(m.value) + (m.after + tail))))))
    ensures |MemberText(m)| == |m.before| + |Quoted(m.key)| + |m.afterKey| + 1 + |m.beforeValue| + |Text(m.value)| + |m.after|
  {
    hide Quoted, Text;
  }

  lemma {:induction false} MembersComplete(s: string, pos: nat, ms: Members, acc: map<string, Json>)
    requires GoodMembers(ms) && Spells(s, pos, MembersText(ms) + "}")
    ensures pos <= |s| && ParseMembers(s, pos, acc) == Parsed(Ok(Object(Entered(acc, ms))), pos + |MembersText(ms)| + 1)
    decreases ms, 2
  {
    hide Spells, ParseMembers, MemberText, GoodMember, Value, PiecesValue;
    var m := ms.member;
    var tail := if ms.LastMember? then "}" else "," + (MembersText(ms.rest) + "}");
    assert MembersText(ms) + "}" == MemberText(m) + tail;
    MemberComplete(s, pos, m, tail, acc);
    if ms.MoreMembers? {
      var end := pos + |MemberText(m)|;
      SpellsParts(s, end, ",", MembersText(ms.rest) + "}");
      MembersComplete(s, end + 1, ms.rest, acc[PiecesValue(m.key) := Value(m.value)]);
    }
  }

  /** One member: it is entered, and the separator behind it decides how to go on. */
  lemma {:induction false} MemberComplete(s: string, pos: nat, m: Member, tail: string, acc: map<string, Json>)
    requires GoodMember(m) && Spells(s, pos, MemberText(m) + tail)
    requires tail != "" && (tail[0] == ',' || tail[0] == '}')
    ensures pos <= |s|
    ensures
      var end, acc' := pos + |MemberText(m)|, acc[PiecesValue(m.key) := Value(m.value)];
      && end < |s| && Spells(s, end, tail)
      && ParseMembers(s, pos, acc)
         == if tail[0] == ',' then ParseMembers(s, end + 1, acc') else Parsed(Ok(Object(acc')), end + 1)
    decreases m.value, 2
  {
    hide Spells, SkipWs, ParseValue, ParseString, Text, MemberText, Quoted, Good, Value, Blank, GoodPieces, PiecesValue;
    var value := Element(m.beforeValue, m.value, m.after);
    MemberTail(m, tail);
    KeyComplete(s, pos, m, m.beforeValue + (Text(m.value) + (m.after + tail)));
    var colon := pos + |m.before| + |Quoted(m.key)| + |m.afterKey|;
    ElementComplete(s, colon + 1, value, tail);
  }

  /** The key of a member is read, and the blanks behind it lead to the colon. */
  lemma KeyComplete(s: string, pos: nat, m: Member, tail: string)
    requires GoodMember(m) && Spells(s, pos, m.before + (Quoted(m.key) + (m.afterKey + (":" + tail))))
    ensures
      var k := pos + |m.before|;
      var colon := k + |Quoted(m.key)| + |m.afterKey|;
      && pos <= |s| && SkipWs(s, pos) == k && Has(s, k, '"')
      && ParseString(s, k) == Parsed(Ok(String(PiecesValue(m.key))), k + |Quoted(m.key)|)
      && SkipWs(s, k + |Quoted(m.key)|) == colon && Has(s, colon, ':') && Spells(s, colon + 1, tail)
  {
    hide Spells, SkipWs, ParseString, PiecesText, PiecesValue, GoodPieces, Blank;
    var k := pos + |m.before|;
    var q := k + |Quoted(m.key)|;
    SpellsParts(s, pos, m.before, Quoted(m.key) + (m.afterKey + (":" + tail)));
    SpellsParts(s, k, Quoted(m.key), m.afterKey + (":" + tail));
    SpellsParts(s, q, m.afterKey, ":" + tail);
    SpellsParts(s, q + |m.afterKey|, ":", tail);
    SpellsChar(s, q + |m.afterKey|, ':');
    StringComplete(s, k, m.key);
    SkipsBlank(s, pos, m.before);
    SkipsBlank(s, q, m.afterKey);
    SpellsRun(s, pos, m.before);
  }
}
