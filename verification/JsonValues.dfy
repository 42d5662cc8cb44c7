/** What numbers, strings and literals mean once they are read, said without the parser's own arithmetic. */
module JsonValues {
  import opened Json
  import opened JsonGrammar
  import opened JsonSound

  // ---- digits --------------------------------------------------------------------------------

  function Ten(n: nat): nat {
    if n == 0 then 1 else 10 * Ten(n - 1)
  }

  /** A digit counts what it shows, and digits behind it multiply it by ten each. */
  lemma {:induction false} DigitsMean(a: string, b: string, d: char)
    requires Digits(a) && Digits(b) && IsDigit(d)
    ensures Digits(a + b) && Natural(a + b) == Natural(a) * Ten(|b|) + Natural(b)
    ensures Natural("") == 0 && Natural([d]) == d as int - '0' as int
    decreases |b|
  {
    assert [d][..0] == "";
    if b == "" {
      assert a + b == a;
    } else {
      var c := b[..|b| - 1];
      DigitsMean(a, c, d);
      assert (a + b)[..|a + b| - 1] == a + c;
      TenTimes(Natural(a), |b|);
    }
  }

  lemma TenTimes(x: nat, n: nat)
    requires n > 0
    ensures x * Ten(n) == 10 * (x * Ten(n - 1))
  {
  }

  lemma {:induction false} Pow10IsTen(n: nat)
    ensures Pow10(n) == Ten(n) as real && Ten(n) > 0
  {
    if n > 0 {
      Pow10IsTen(n - 1);
    }
  }

  // ---- numbers -------------------------------------------------------------------------------

  function Size(x: real): real {
    if x < 0.0 then -x else x
  }

  lemma Quotient(x: real, y: real)
    requires y > 0.0
    ensures (x / y) * y == x
  {
  }

  lemma Cleared(w: real, f: real, p: real)
    requires p > 0.0
    ensures (w + f / p) * p == w * p + f
  {
    Quotient(f, p);
    assert (w + f / p) * p == w * p + (f / p) * p;
  }

  lemma AsReal(a: nat, b: nat, c: nat)
    ensures (a * b + c) as real == (a as real) * (b as real) + c as real
  {
  }

  function Mantissa(whole: string, fraction: string): real
    requires Digits(whole) && Digits(fraction)
  {
    Pow10Positive(|fraction|);
    Natural(whole) as real + Natural(fraction) as real / Pow10(|fraction|)
  }

  /** The mantissa, cleared of its point. */
  lemma MantissaMeans(whole: string, fraction: string)
    requires Digits(whole) && Digits(fraction)
    ensures Digits(whole + fraction)
    ensures Mantissa(whole, fraction) * Ten(|fraction|) as real == Natural(whole + fraction) as real
    ensures Mantissa(whole, fraction) >= 0.0
  {
    hide Natural, Pow10, Ten;
    DigitsMean(whole, fraction, '0');
    Pow10IsTen(|fraction|);
    Cleared(Natural(whole) as real, Natural(fraction) as real, Pow10(|fraction|));
    AsReal(Natural(whole), Ten(|fraction|), Natural(fraction));
    NotNegative(Natural(fraction), Pow10(|fraction|));
  }

  lemma NotNegative(f: nat, p: real)
    requires p > 0.0
    ensures f as real / p >= 0.0
  {
  }

  lemma Scale(m: real, p: real, q: real, x: real)
    requires m >= 0.0 && p > 0.0 && q > 0.0 && m * p == x
    ensures m * q >= 0.0 && (m * q) * p == x * q
    ensures m / q >= 0.0 && ((m / q) * p) * q == x
  {
    assert (m * q) * p == (m * p) * q;
    Quotient(m, q);
    assert ((m / q) * p) * q == ((m / q) * q) * p;
  }

  /** The number is the mantissa, scaled and signed. */
  lemma DecimalIsScaled(negative: bool, whole: string, fraction: string, exponent: int, q: real)
    requires Digits(whole) && Digits(fraction) && q > 0.0 && q == Pow10(if exponent < 0 then -exponent else exponent)
    requires Mantissa(whole, fraction) >= 0.0 && Mantissa(whole, fraction) / q >= 0.0 && Mantissa(whole, fraction) * q >= 0.0
    requires whole != "" || fraction != ""
    ensures
      var v, m := Decimal(negative, whole, fraction, exponent), Mantissa(whole, fraction);
      Size(v) == (if exponent < 0 then m / q else m * q) && (v < 0.0 ==> negative) && (negative ==> v <= 0.0)
  {
    hide Natural, Pow10;
  }

  lemma NoDigits(negative: bool, exponent: int)
    ensures Natural("" + "") == 0 && Decimal(negative, "", "", exponent) == 0.0
  {
    assert "" + "" == "";
  }

  lemma DecimalMeans(negative: bool, whole: string, fraction: string, exponent: int)
    requires Digits(whole) && Digits(fraction)
    ensures Digits(whole + fraction)
    ensures
      var v, digits := Decimal(negative, whole, fraction, exponent), Natural(whole + fraction) as real;
      && (v < 0.0 ==> negative) && (negative ==> v <= 0.0)
      && (exponent >= 0 ==> Size(v) * Ten(|fraction|) as real == digits * Ten(exponent) as real)
      && (exponent < 0 ==> (Size(v) * Ten(|fraction|) as real) * Ten(-exponent) as real == digits)
  {
    hide Natural, Pow10, Ten, Decimal, Mantissa;
    MantissaMeans(whole, fraction);
    if whole == "" && fraction == "" {
      NoDigits(negative, exponent);
    } else {
      var k: nat := if exponent < 0 then -exponent else exponent;
      Pow10IsTen(|fraction|);
      Pow10IsTen(k);
      Scale(Mantissa(whole, fraction), Ten(|fraction|) as real, Pow10(k), Natural(whole + fraction) as real);
      DecimalIsScaled(negative, whole, fraction, exponent, Pow10(k));
    }
  }

  /** The number read from a numeral with digits w, digits f behind the point and exponent digits x is
      wf / 10^|f| times or divided by 10^x, with the sign of the numeral. */
  lemma NumberMeans(n: Numeral)
    requires GoodNumeral(n)
    ensures Digits(n.whole + n.fraction) && (n.exponent.Exponent? ==> Digits(n.exponent.digits))
    ensures ParseJson(NumeralText(n)).Ok? && ParseJson(NumeralText(n)).value.Number?
    ensures
      var v, digits := ParseJson(NumeralText(n)).value.number, Natural(n.whole + n.fraction) as real;
      var x := if n.exponent.Exponent? then Natural(n.exponent.digits) else 0;
      && (v < 0.0 ==> n.negative) && (n.negative ==> v <= 0.0)
      && (if n.exponent.Exponent? && n.exponent.sign == "-"
          then (Size(v) * Ten(|n.fraction|) as real) * Ten(x) as real == digits
          else Size(v) * Ten(|n.fraction|) as real == digits * Ten(x) as real)
  {
    hide ParseJson, Decimal, Natural, Ten, Size;
    var t := NumberTree(n);
    assert "" + (Text(t) + "") == NumeralText(n);
    ReadsIsParsed(NumeralText(n), "", t, "");
    DecimalMeans(n.negative, n.whole, n.fraction, ExponentValue(n.exponent));
    TenToZero();
  }

  lemma TenToZero()
    ensures Ten(0) == 1
  {
  }

  // ---- strings -------------------------------------------------------------------------------

  /** What one piece of a string literal stands for: a plain character for itself, `\\n`, `\\t` and `\\r` for
      line feed, tab and carriage return, a quote, a backslash and a slash behind a backslash for themselves. */
  ghost predicate StandsFor(p: Piece, c: char) {
    match p
    case Raw(r) => c == r
    case Escaped(e) =>
      if e == 'n' then c as int == 10 else if e == 't' then c as int == 9 else if e == 'r' then c as int == 13 else c == e
  }

  lemma StringMeans(ps: seq<Piece>)
    requires GoodPieces(ps)
    ensures ParseJson(Quoted(ps)).Ok? && ParseJson(Quoted(ps)).value.String?
    ensures
      var text := ParseJson(Quoted(ps)).value.text;
      |text| == |ps| && forall i :: 0 <= i < |ps| ==> StandsFor(ps[i], text[i])
  {
    hide ParseJson, PiecesValue, PiecesText;
    var t := StringTree(ps);
    assert "" + (Text(t) + "") == Quoted(ps);
    ReadsIsParsed(Quoted(ps), "", t, "");
    PiecesMean(ps);
  }

  lemma {:induction false} PiecesMean(ps: seq<Piece>)
    requires GoodPieces(ps)
    ensures |PiecesValue(ps)| == |ps| && forall i :: 0 <= i < |ps| ==> StandsFor(ps[i], PiecesValue(ps)[i])
  {
    if ps != [] {
      PiecesMean(ps[1..]);
    }
  }

  /** Which characters may stand behind a backslash: the quote, the backslash, the slash, `n`, `r` and `t`. */
  lemma EscapesMean(c: char)
    ensures ParseJson(Quoted([Escaped(c)])).Ok? <==> c as int in {34, 92, 47, 110, 114, 116}
  {
    var text := Quoted([Escaped(c)]);
    if IsEscape(c) {
      hide ParseJson;
      StringMeans([Escaped(c)]);
    } else {
      assert PiecesText([Escaped(c)]) == ['\\', c] + PiecesText([]);
      assert text == ['"', '\\', c, '"'];
      assert SkipWs(text, 0) == 0;
    }
  }

  /** Blanks are spaces and the five control characters from tab to carriage return. */
  lemma BlankMeans(ws: string)
    ensures Blank(ws) <==> forall i :: 0 <= i < |ws| ==> ws[i] as int in {32, 9, 10, 11, 12, 13}
  {
  }

  // ---- literals ------------------------------------------------------------------------------

  lemma LiteralsMean()
    ensures ParseJson("true") == Ok(Bool(true)) && ParseJson("false") == Ok(Bool(false)) && ParseJson("null") == Ok(Null)
  {
    hide ParseJson;
    LiteralReads(BoolTree(true), "true");
    LiteralReads(BoolTree(false), "false");
    LiteralReads(NullTree, "null");
  }

  lemma LiteralReads(t: Tree, text: string)
    requires Good(t) && Text(t) == text
    ensures ParseJson(text) == Ok(Value(t))
  {
    hide ParseJson, Value;
    assert "" + (Text(t) + "") == text;
    ReadsIsParsed(text, "", t, "");
  }
}
