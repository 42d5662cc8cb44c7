/** Whatever the JSON parser accepts is the text of a well-formed tree with the value it returns. */
module JsonSound {
  import opened Json
  import opened JsonGrammar

  lemma SpellsSlice(s: string, pos: nat, end: nat)
    requires pos <= end <= |s|
    ensures Spells(s, pos, s[pos..end])
  {
  }

  lemma {:induction false} CharsSound(s: string, pos: nat, acc: string) returns (ps: seq<Piece>)
    requires pos <= |s| && ParseChars(s, pos, acc).result.Ok?
    ensures GoodPieces(ps) && Spells(s, pos, PiecesText(ps) + "\"")
    ensures ParseChars(s, pos, acc) == Parsed(Ok(acc + PiecesValue(ps)), pos + |PiecesText(ps)| + 1)
    decreases |s| - pos
  {
    hide Spells;
    if s[pos] == '"' {
      ps := [];
      SpellsChar(s, pos, '"');
      assert PiecesText(ps) + "\"" == ['"'];
      assert acc + PiecesValue(ps) == acc;
    } else {
      var piece := if s[pos] == '\\' then Escaped(s[pos + 1]) else Raw(s[pos]);
      var head := if piece.Raw? then [piece.c] else ['\\', piece.c];
      SpellsSlice(s, pos, pos + |head|);
      assert s[pos..pos + |head|] == head;
      var rest := CharsSound(s, pos + |head|, acc + [PieceValue(piece)]);
      ps := [piece] + rest;
      assert ps[1..] == rest;
      SpellsParts(s, pos, head, PiecesText(rest) + "\"");
      assert PiecesText(ps) + "\"" == head + (PiecesText(rest) + "\"");
      assert acc + [PieceValue(piece)] + PiecesValue(rest) == acc + PiecesValue(ps);
    }
  }

  lemma StringSound(s: string, pos: nat) returns (ps: seq<Piece>)
    requires Has(s, pos, '"') && ParseString(s, pos).result.Ok?
    ensures GoodPieces(ps) && Spells(s, pos, Quoted(ps))
    ensures ParseString(s, pos) == Parsed(Ok(String(PiecesValue(ps))), pos + |Quoted(ps)|)
  {
    hide Spells, ParseChars;
    ps := CharsSound(s, pos + 1, "");
    SpellsChar(s, pos, '"');
    SpellsParts(s, pos, "\"", PiecesText(ps) + "\"");
    assert "" + PiecesValue(ps) == PiecesValue(ps);
  }

  lemma SpellsSign(s: string, pos: nat, sign: string)
    requires pos <= |s| && (sign == "" || (|sign| == 1 && Has(s, pos, sign[0])))
    ensures Spells(s, pos, sign)
    ensures sign == "-" <==> sign != "" && s[pos] == '-'
  {
    if sign != "" {
      assert sign == [sign[0]];
      SpellsChar(s, pos, sign[0]);
    }
  }

  /** Where the digits of an exponent start. */
  function ExponentDigits(s: string, pos: nat): nat {
    if Has(s, pos + 1, '+') || Has(s, pos + 1, '-') then pos + 2 else pos + 1
  }

  /** The exponent that the number scanner reads from a position. */
  function ExponentFrom(s: string, pos: nat): Exponent
    requires pos <= |s|
  {
    if Has(s, pos, 'e') || Has(s, pos, 'E') then
      var from := ExponentDigits(s, pos);
      Exponent(s[pos], if from == pos + 2 then [s[pos + 1]] else "", s[from..SkipDigits(s, from)])
    else NoExponent
  }

  lemma ExponentFromSpells(s: string, pos: nat)
    requires pos <= |s|
    ensures
      var e := ExponentFrom(s, pos);
      Spells(s, pos, ExponentText(e)) && SkipExponent(s, pos) == pos + |ExponentText(e)|
  {
    hide Spells, SkipDigits;
    var e := ExponentFrom(s, pos);
    if e.Exponent? {
      var from := ExponentDigits(s, pos);
      SpellsChar(s, pos, s[pos]);
      SpellsSign(s, pos + 1, e.sign);
      SpellsSlice(s, from, SkipDigits(s, from));
      SpellsParts(s, pos + 1, e.sign, e.digits);
      SpellsParts(s, pos, [s[pos]], e.sign + e.digits);
    } else {
      SpellsSlice(s, pos, pos);
    }
  }

  lemma ExponentFromIsGood(s: string, pos: nat)
    requires pos <= |s|
    ensures GoodExponent(ExponentFrom(s, pos)) && ExponentAt(s, pos) == ExponentValue(ExponentFrom(s, pos))
  {
    hide Natural, SkipDigits, Digits;
    var e := ExponentFrom(s, pos);
    if e.Exponent? {
      SkipsDigits(s, ExponentDigits(s, pos));
      SpellsSign(s, pos + 1, e.sign);
    }
  }

  lemma FractionSound(s: string, pos: nat)
    requires pos <= |s|
    ensures
      var f := if Has(s, pos, '.') then "." + FractionAt(s, pos) else "";
      Spells(s, pos, f) && SkipFraction(s, pos) == pos + |f|
  {
    hide Spells, SkipDigits;
    if Has(s, pos, '.') {
      SpellsChar(s, pos, '.');
      SpellsSlice(s, pos + 1, SkipDigits(s, pos + 1));
      SpellsParts(s, pos, ".", FractionAt(s, pos));
    } else {
      SpellsSlice(s, pos, pos);
    }
  }

  /** The numeral that the number scanner reads from a position. */
  lemma NumeralAt(s: string, pos: nat) returns (n: Numeral)
    requires pos < |s| && (s[pos] == '-' || IsDigit(s[pos]))
    ensures Digits(n.whole) && Digits(n.fraction) && GoodExponent(n.exponent) && (!n.point ==> n.fraction == "")
    ensures n.negative || n.whole != ""
    ensures Spells(s, pos, NumeralText(n)) && NumberEnd(s, pos) == pos + |NumeralText(n)|
    ensures Strtod(s, pos) == Decimal(n.negative, n.whole, n.fraction, ExponentValue(n.exponent))
  {
    hide Spells, Natural, ExponentFrom, SkipFraction, SkipExponent, FractionAt, ExponentAt, ExponentText, ExponentValue, Decimal, GoodExponent;
    var a := SkipSign(s, pos);
    var b := SkipDigits(s, a);
    var c := SkipFraction(s, b);
    SkipsDigits(s, a);
    FractionSound(s, b);
    var e := ExponentFrom(s, c);
    ExponentFromSpells(s, c);
    ExponentFromIsGood(s, c);
    n := Numeral(a > pos, s[a..b], Has(s, b, '.'), FractionAt(s, b), e);
    NoPointNoFraction(s, b);
    var sign := if n.negative then "-" else "";
    SpellsSlice(s, pos, a);
    assert s[pos..a] == sign;
    SpellsSlice(s, a, b);
    SpellsParts(s, b, FractionText(n), ExponentText(e));
    SpellsParts(s, a, n.whole, FractionText(n) + ExponentText(e));
    SpellsParts(s, pos, sign, n.whole + (FractionText(n) + ExponentText(e)));
    NumeralTextParts(n);
  }

  lemma NoPointNoFraction(s: string, pos: nat)
    requires pos <= |s|
    ensures FractionAt(s, pos) != "" ==> Has(s, pos, '.')
  {
  }

  lemma NumberSound(s: string, pos: nat) returns (n: Numeral)
    requires pos < |s| && (s[pos] == '-' || IsDigit(s[pos])) && ParseNumber(s, pos).result.Ok?
    ensures GoodNumeral(n) && Spells(s, pos, NumeralText(n))
    ensures ParseNumber(s, pos) == Parsed(Ok(Number(NumeralValue(n))), pos + |NumeralText(n)|)
  {
    hide Spells, NumberEnd, Strtod, ExponentText, Decimal, GoodExponent;
    n := NumeralAt(s, pos);
    SpellsRun(s, pos, NumeralText(n));
    NumeralTextParts(n);
    SignAloneIsNoNumeral(n);
  }

  lemma SignAloneIsNoNumeral(n: Numeral)
    requires n.negative || n.whole != ""
    ensures NumeralText(n) != "-" ==> n.whole != "" || n.point || n.exponent.Exponent?
  {
  }

  lemma BlankAt(s: string, pos: nat) returns (ws: string)
    requires pos <= |s|
    ensures Blank(ws) && Spells(s, pos, ws) && SkipWs(s, pos) == pos + |ws|
  {
    SkipWsIsBlank(s, pos);
    ws := s[pos..SkipWs(s, pos)];
    SpellsSlice(s, pos, SkipWs(s, pos));
  }

  lemma {:induction false} ValueSound(s: string, pos: nat) returns (ws: string, t: Tree)
    requires pos <= |s| && ParseValue(s, pos).result.Ok?
    ensures Blank(ws) && Good(t) && Spells(s, pos, ws + Text(t))
    ensures ParseValue(s, pos) == Parsed(Ok(Value(t)), pos + |ws| + |Text(t)|)
    decreases |s| - pos, 3
  {
    hide Spells, SkipWs, ParseArray, ParseObject, ParseString, ParseNumber, NumeralText, Quoted, ElementsText, MembersText,
         Blank, GoodNumeral, GoodPieces, GoodElements, GoodMembers;
    ws := BlankAt(s, pos);
    var p := SkipWs(s, pos);
    if s[p] == '{' {
      t := ObjectSound(s, p);
    } else if s[p] == '[' {
      t := ArraySound(s, p);
    } else if s[p] == '"' {
      var ps := StringSound(s, p);
      t := StringTree(ps);
    } else if s[p] == 't' || s[p] == 'f' {
      t := BoolTree(Spells(s, p, "true"));
    } else if s[p] == 'n' {
      t := NullTree;
    } else {
      var n := NumberSound(s, p);
      t := NumberTree(n);
    }
    SpellsParts(s, pos, ws, Text(t));
  }

  lemma {:induction false} ArraySound(s: string, pos: nat) returns (t: Tree)
    requires Has(s, pos, '[') && ParseArray(s, pos).result.Ok?
    ensures Good(t) && Spells(s, pos, Text(t)) && ParseArray(s, pos) == Parsed(Ok(Value(t)), pos + |Text(t)|)
    decreases |s| - pos, 2
  {
    hide Spells, SkipWs, ParseItems, ElementsText, GoodElements, Values, Blank;
    SpellsChar(s, pos, '[');
    var p := SkipWs(s, pos + 1);
    if Has(s, p, ']') {
      var ws := BlankAt(s, pos + 1);
      t := EmptyArray(ws);
      SpellsChar(s, p, ']');
      SpellsParts(s, pos + 1, ws, "]");
      SpellsParts(s, pos, "[", ws + "]");
    } else {
      ItemsSkipBlank(s, pos + 1, []);
      var es := ItemsSound(s, pos + 1, []);
      t := ArrayTree(es);
      assert [] + Values(es) == Values(es);
      SpellsParts(s, pos, "[", ElementsText(es) + "]");
    }
  }

  lemma {:induction false} ItemsSound(s: string, pos: nat, acc: seq<Json>) returns (es: Elements)
    requires pos <= |s| && ParseItems(s, pos, acc).result.Ok?
    ensures GoodElements(es) && Spells(s, pos, ElementsText(es) + "]")
    ensures ParseItems(s, pos, acc) == Parsed(Ok(Array(acc + Values(es))), pos + |ElementsText(es)| + 1)
    decreases |s| - pos, 4
  {
    hide Spells, SkipWs, ParseValue, Text, Good, Value, Blank;
    var e, end := ElementSound(s, pos);
    var acc' := acc + [Value(e.value)];
    if Has(s, end, ',') {
      var rest := ItemsSound(s, end + 1, acc');
      es := MoreElements(e, rest);
      SpellsChar(s, end, ',');
      SpellsParts(s, end, ",", ElementsText(rest) + "]");
      SpellsParts(s, pos, ElementText(e), "," + (ElementsText(rest) + "]"));
      assert ElementsText(es) + "]" == ElementText(e) + ("," + (ElementsText(rest) + "]"));
      assert acc' + Values(rest) == acc + Values(es);
    } else {
      es := LastElement(e);
      SpellsChar(s, end, ']');
      SpellsParts(s, pos, ElementText(e), "]");
    }
  }

  /** A value together with the blanks around it. */
  lemma {:induction false} ElementSound(s: string, pos: nat) returns (e: Element, end: nat)
    requires pos <= |s| && ParseValue(s, pos).result.Ok?
    ensures Blank(e.before) && Good(e.value) && Blank(e.after)
    ensures Spells(s, pos, ElementText(e)) && end == pos + |ElementText(e)| == SkipWs(s, ParseValue(s, pos).pos)
    ensures ParseValue(s, pos).result == Ok(Value(e.value))
    decreases |s| - pos, 4, 0
  {
    hide Spells, SkipWs, ParseValue, Text, Good, Value, Blank;
    var ws, t := ValueSound(s, pos);
    var after := BlankAt(s, pos + |ws| + |Text(t)|);
    e := Element(ws, t, after);
    SpellsParts(s, pos, ws + Text(t), after);
    assert ElementText(e) == ws + Text(t) + after;
    end := pos + |ElementText(e)|;
  }

  lemma {:induction false} ObjectSound(s: string, pos: nat) returns (t: Tree)
    requires Has(s, pos, '{') && ParseObject(s, pos).result.Ok?
    ensures Good(t) && Spells(s, pos, Text(t)) && ParseObject(s, pos) == Parsed(Ok(Value(t)), pos + |Text(t)|)
    decreases |s| - pos, 2
  {
    hide Spells, SkipWs, ParseMembers, MembersText, GoodMembers, Entered, Blank;
    SpellsChar(s, pos, '{');
    var p := SkipWs(s, pos + 1);
    if Has(s, p, '}') {
      var ws := BlankAt(s, pos + 1);
      t := EmptyObject(ws);
      SpellsChar(s, p, '}');
      SpellsParts(s, pos + 1, ws, "}");
      SpellsParts(s, pos, "{", ws + "}");
    } else {
      MembersSkipBlank(s, pos + 1, map[]);
      var ms := MembersSound(s, pos + 1, map[]);
      t := ObjectTree(ms);
      SpellsParts(s, pos, "{", MembersText(ms) + "}");
    }
  }

  lemma {:induction false} MembersSound(s: string, pos: nat, acc: map<string, Json>) returns (ms: Members)
    requires pos <= |s| && ParseMembers(s, pos, acc).result.Ok?
    ensures GoodMembers(ms) && Spells(s, pos, MembersText(ms) + "}")
    ensures ParseMembers(s, pos, acc) == Parsed(Ok(Object(Entered(acc, ms))), pos + |MembersText(ms)| + 1)
    decreases |s| - pos, 4
  {
    hide Spells, SkipWs, ParseValue, ParseString, Value, PiecesValue, MemberText, GoodMember;
    var m, end := MemberSound(s, pos, acc);
    var acc' := acc[PiecesValue(m.key) := Value(m.value)];
    if Has(s, end, ',') {
      var rest := MembersSound(s, end + 1, acc');
      ms := MoreMembers(m, rest);
      SpellsChar(s, end, ',');
      SpellsParts(s, end, ",", MembersText(rest) + "}");
      SpellsParts(s, pos, MemberText(m), "," + (MembersText(rest) + "}"));
      assert MembersText(ms) + "}" == MemberText(m) + ("," + (MembersText(rest) + "}"));
    } else {
      ms := LastMember(m);
      SpellsChar(s, end, '}');
      SpellsParts(s, pos, MemberText(m), "}");
    }
  }

  lemma {:induction false} MemberSound(s: string, pos: nat, acc: map<string, Json>) returns (m: Member, end: nat)
    requires pos <= |s| && ParseMembers(s, pos, acc).result.Ok?
    ensures GoodMember(m) && Spells(s, pos, MemberText(m)) && end == pos + |MemberText(m)| && end > pos
    ensures Has(s, end, ',') || Has(s, end, '}')
    ensures
      var acc' := acc[PiecesValue(m.key) := Value(m.value)];
      ParseMembers(s, pos, acc) == if Has(s, end, ',') then ParseMembers(s, end + 1, acc') else Parsed(Ok(Object(acc')), end + 1)
    decreases |s| - pos, 4, 0
  {
    hide Spells, SkipWs, ParseValue, ParseString, Text, MemberText, Quoted, Good, Value, Blank, GoodPieces, PiecesValue;
    var before := BlankAt(s, pos);
    var k := pos + |before|;
    var key := StringSound(s, k);
    var q := k + |Quoted(key)|;
    var afterKey := BlankAt(s, q);
    var colon := q + |afterKey|;
    var e: Element;
    e, end := ElementSound(s, colon + 1);
    m := Member(before, key, afterKey, e.before, e.value, e.after);
    SpellsChar(s, colon, ':');
    MemberTail(m, "");
    SpellsParts(s, colon, ":", ElementText(e));
    SpellsParts(s, q, afterKey, ":" + ElementText(e));
    SpellsParts(s, k, Quoted(key), afterKey + (":" + ElementText(e)));
    SpellsParts(s, pos, before, Quoted(key) + (afterKey + (":" + ElementText(e))));
    WholeMember(m, e);
  }

  lemma WholeMember(m: Member, e: Element)
    requires e == Element(m.beforeValue, m.value, m.after)
    ensures MemberText(m) == m.before + (Quoted(m.key) + (m.afterKey + (":" + ElementText(e))))
  {
    hide Quoted, Text;
  }

  // ---- the whole text ------------------------------------------------------------------------

  /** `text` is a well-formed tree between blanks. */
  ghost predicate Reads(text: string, before: string, t: Tree, after: string) {
    Blank(before) && Good(t) && Blank(after) && text == before + (Text(t) + after)
  }

  lemma ReadsIsParsed(text: string, before: string, t: Tree, after: string)
    requires Reads(text, before, t, after)
    ensures ParseJson(text) == Ok(Value(t))
  {
    hide Spells, ParseValue, Text, Value, Good, Blank, SkipWs;
    var p := |before|;
    SpellsSlice(text, 0, |text|);
    assert text[0..|text|] == text;
    SpellsParts(text, 0, before, Text(t) + after);
    SpellsParts(text, p, Text(t), after);
    TextStarts(t);
    FirstChar(text, p, Text(t));
    SkipsBlank(text, 0, before);
    AfterStops(text, p + |Text(t)|, after);
    ValueComplete(text, p, t);
    SkipsBlank(text, p + |Text(t)|, after);
  }

  lemma AfterStops(s: string, pos: nat, ws: string)
    requires Spells(s, pos, ws) && Blank(ws) && pos + |ws| == |s|
    ensures Stops(s, pos)
  {
    if ws != "" {
      FirstChar(s, pos, ws);
    }
  }

  lemma ParsedReads(text: string) returns (before: string, t: Tree, after: string)
    requires ParseJson(text).Ok?
    ensures Reads(text, before, t, after) && ParseJson(text) == Ok(Value(t))
  {
    hide Spells, ParseValue, Text, Value, Good, Blank, SkipWs;
    ValueSkipsBlank(text, 0);
    before, t := ValueSound(text, 0);
    var end := |before| + |Text(t)|;
    after := BlankAt(text, end);
    SpellsParts(text, 0, before + Text(t), after);
    SpellsRun(text, 0, before + Text(t) + after);
    assert text[0..|text|] == text;
    assert before + Text(t) + after == before + (Text(t) + after);
  }

  /** The parser accepts exactly the texts of well-formed trees between blanks, and returns their value. */
  lemma ParserReadsTheGrammar(text: string, v: Json)
    ensures ParseJson(text) == Ok(v) <==> exists before, t, after :: Reads(text, before, t, after) && Value(t) == v
  {
    hide ParseJson, Reads, Value;
    if ParseJson(text) == Ok(v) {
      var before, t, after := ParsedReads(text);
    }
    if before, t, after :| Reads(text, before, t, after) && Value(t) == v {
      ReadsIsParsed(text, before, t, after);
    }
  }

  /** A text is read in one way only: two trees with the same text have the same value. */
  lemma TextDeterminesValue(t: Tree, t': Tree)
    requires Good(t) && Good(t') && Text(t) == Text(t')
    ensures Value(t) == Value(t')
  {
    hide Text, Good, Value, ParseJson;
    assert Text(t) == "" + (Text(t) + "");
    assert Text(t') == "" + (Text(t') + "");
    ReadsIsParsed(Text(t), "", t, "");
    ReadsIsParsed(Text(t'), "", t', "");
  }
}
