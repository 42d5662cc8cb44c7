/** Reading words from a line: the server's tokenizer, and the stream extraction it is made of. */
module Words {
  import opened Tokens
  import opened WorldModel
  import opened Json
  import opened JsonGrammar
  import opened JsonSound

  /** The end of the word at `pos`. */
  function WordEnd(s: string, pos: nat): (end: nat)
    requires pos <= |s|
    ensures pos <= end <= |s|
    ensures end < |s| ==> IsSpace(s[end])
    ensures forall i :: pos <= i < end ==> !IsSpace(s[i])
    decreases |s| - pos
  {
    if pos < |s| && !IsSpace(s[pos]) then WordEnd(s, pos + 1) else pos
  }

  /** The words of a text from `pos` on. */
  function WordsFrom(s: string, pos: nat): seq<string>
    requires pos <= |s|
    decreases |s| - pos
  {
    var a := SkipWs(s, pos);
    if a == |s| then []
    else
      SkipWsIsBlank(s, pos);
      var b := WordEnd(s, a);
      assert b > a;
      [s[a..b]] + WordsFrom(s, b)
  }

  function WordsOf(s: string): seq<string> {
    WordsFrom(s, 0)
  }

  /** A stream of words over a text, as `istringstream` extracts them. */
  class Stream {
    const s: string
    var pos: nat

    constructor (text: string)
      ensures s == text && pos == 0
    {
      s, pos := text, 0;
    }

    method SkipBlanks()
      requires pos <= |s|
      modifies this
      ensures pos <= |s| && pos == SkipWs(s, old(pos))
    {
      while pos < |s| && IsSpace(s[pos])
        invariant old(pos) <= pos <= |s| && SkipWs(s, pos) == SkipWs(s, old(pos))
        decreases |s| - pos
      {
        pos := pos + 1;
      }
    }

    /** `stream >> word`. */
    method NextWord() returns (ok: bool, word: string)
      requires pos <= |s|
      modifies this
      ensures pos <= |s|
      ensures var a := SkipWs(s, old(pos)); ok == (a < |s|) && pos == WordEnd(s, a) && (ok ==> word == s[a..pos] && old(pos) < pos)
    {
      SkipBlanks();
      var start := pos;
      while pos < |s| && !IsSpace(s[pos])
        invariant start <= pos <= |s| && WordEnd(s, pos) == WordEnd(s, start)
        decreases |s| - pos
      {
        pos := pos + 1;
      }
      word := s[start..pos];
      ok := start < |s|;
      SkipWsIsBlank(s, old(pos));
    }

    /** `getline(stream >> ws, rest)`: what follows the blanks, up to a line feed. */
    method RestOfLine() returns (rest: string)
      requires pos <= |s|
      modifies this
      ensures rest == RestFrom(s, old(pos))
    {
      SkipBlanks();
      var start := pos;
      while pos < |s| && s[pos] != '\n'
        invariant start <= pos <= |s| && LineEnd(s, pos) == LineEnd(s, start)
        decreases |s| - pos
      {
        pos := pos + 1;
      }
      rest := s[start..pos];
    }
  }

  function LineEnd(s: string, pos: nat): (end: nat)
    requires pos <= |s|
    ensures pos <= end <= |s|
    decreases |s| - pos
  {
    if pos < |s| && s[pos] != '\n' then LineEnd(s, pos + 1) else pos
  }

  function RestFrom(s: string, pos: nat): string
    requires pos <= |s|
  {
    var a := SkipWs(s, pos);
    s[a..LineEnd(s, a)]
  }

  /** `split_ws`. */
  method SplitWs(s: string) returns (out: seq<string>)
    ensures out == WordsOf(s)
  {
    out := [];
    var iss := new Stream(s);
    var ok, tok := iss.NextWord();
    while ok
      invariant iss.s == s && iss.pos <= |s|
      invariant !ok ==> out == WordsOf(s)
      invariant ok ==> WordsOf(s) == out + [tok] + WordsFrom(s, iss.pos)
      decreases ok, |s| - iss.pos
    {
      out := out + [tok];
      ok, tok := iss.NextWord();
    }
  }

  lemma {:induction false} WordsAreTokens(s: string, pos: nat)
    requires pos <= |s|
    ensures forall i :: 0 <= i < |WordsFrom(s, pos)| ==> IsToken(WordsFrom(s, pos)[i])
    decreases |s| - pos
  {
    var a := SkipWs(s, pos);
    if a < |s| {
      SkipWsIsBlank(s, pos);
      var b := WordEnd(s, a);
      WordsAreTokens(s, b);
      var word := s[a..b];
      assert forall i :: 0 <= i < |word| ==> word[i] == s[a + i];
    }
  }

  /** What the dispatcher hands to a handler are never empty strings. */
  lemma CommandWordsAreTokens(line: string)
    ensures forall i :: 0 <= i < |WordsOf(line)| ==> IsToken(WordsOf(line)[i])
  {
    WordsAreTokens(line, 0);
  }

  /** A word and what stands behind it. */
  lemma WordAt(s: string, pos: nat, t: string)
    requires IsToken(t) && Spells(s, pos, t)
    requires pos + |t| < |s| ==> IsSpace(s[pos + |t|])
    ensures pos < |s| && SkipWs(s, pos) == pos && WordEnd(s, pos) == pos + |t| && s[pos..pos + |t|] == t
  {
    SpellsRun(s, pos, t);
    forall i | pos <= i < pos + |t| ensures !IsSpace(s[i]) {
      assert s[i] == s[pos..pos + |t|][i - pos];
    }
    WordEndIs(s, pos, pos + |t|);
  }

  lemma {:induction false} WordEndIs(s: string, pos: nat, end: nat)
    requires pos <= end <= |s| && (end < |s| ==> IsSpace(s[end])) && forall i :: pos <= i < end ==> !IsSpace(s[i])
    ensures WordEnd(s, pos) == end
    decreases end - pos
  {
    if pos < end {
      WordEndIs(s, pos + 1, end);
    }
  }

  lemma OneBlank(s: string, pos: nat)
    requires Has(s, pos, ' ')
    ensures WordsFrom(s, pos) == WordsFrom(s, pos + 1) && SkipWs(s, pos) == SkipWs(s, pos + 1)
  {
  }

  /** The first word of a text, alone or before a blank. */
  lemma WordsStep(s: string, pos: nat, t: string)
    requires IsToken(t) && Spells(s, pos, t) && (pos + |t| == |s| || Has(s, pos + |t|, ' '))
    ensures pos < |s|
    ensures WordsFrom(s, pos) == [t] + (if pos + |t| == |s| then [] else WordsFrom(s, pos + |t| + 1))
  {
    hide Spells, IsToken;
    WordAt(s, pos, t);
    if pos + |t| < |s| {
      OneBlank(s, pos + |t|);
    }
  }

  lemma {:induction false} JoinedWords(s: string, pos: nat, tokens: seq<string>, start: nat)
    requires forall i :: 0 <= i < |tokens| ==> IsToken(tokens[i])
    requires start < |tokens| && Spells(s, pos, JoinFrom(tokens, start)) && pos + |JoinFrom(tokens, start)| == |s|
    ensures pos <= |s| && WordsFrom(s, pos) == tokens[start..]
    decreases |tokens| - start
  {
    hide Spells, WordsFrom, IsToken;
    var t := tokens[start];
    if start + 1 == |tokens| {
      WordsStep(s, pos, t);
    } else {
      var rest := JoinFrom(tokens, start + 1);
      assert JoinFrom(tokens, start) == t + (" " + rest);
      SpellsParts(s, pos, t, " " + rest);
      SpellsParts(s, pos + |t|, " ", rest);
      SpellsChar(s, pos + |t|, ' ');
      WordsStep(s, pos, t);
      JoinedWords(s, pos + |t| + 1, tokens, start + 1);
    }
  }

  /** Splitting what was joined gives the tokens back. */
  lemma SplitOfJoin(tokens: seq<string>)
    requires forall i :: 0 <= i < |tokens| ==> IsToken(tokens[i])
    ensures WordsOf(JoinFrom(tokens, 0)) == tokens
  {
    var s := JoinFrom(tokens, 0);
    SpellsSlice(s, 0, |s|);
    assert s[0..|s|] == s;
    if tokens != [] {
      JoinedWords(s, 0, tokens, 0);
      assert tokens[0..] == tokens;
    }
  }
}
