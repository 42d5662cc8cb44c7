/** Splitting the received stream into lines, however `recv` divides it. */
module LineReader {

  const MAX_LINE_LENGTH := 8192
  const CHUNK_SIZE := 4096

  // ---- the stream, as a whole ----------------------------------------------------------------

  /** Where the first line feed is; the length of the text if there is none. */
  function FirstLf(s: string): (k: nat)
    ensures k <= |s| && (k < |s| ==> s[k] == '\n')
    ensures forall i :: 0 <= i < k ==> s[i] != '\n'
  {
    if s == "" then 0
    else if s[0] == '\n' then 0
    else
      var k := 1 + FirstLf(s[1..]);
      assert forall i :: 1 <= i < k ==> s[i] == s[1..][i - 1];
      k
  }

  function DropCr(line: string): string {
    if line != "" && line[|line| - 1] == '\r' then line[..|line| - 1] else line
  }

  /** The terminated lines of a stream, without their line feeds and one carriage return before each. */
  function Lines(s: string): seq<string>
    decreases |s|
  {
    var k := FirstLf(s);
    if k == |s| then [] else [DropCr(s[..k])] + Lines(s[k + 1..])
  }

  /** Every terminated line of the stream has at most 8192 characters. */
  predicate ShortLines(s: string)
    decreases |s|
  {
    var k := FirstLf(s);
    k == |s| || (k <= MAX_LINE_LENGTH && ShortLines(s[k + 1..]))
  }

  // ---- reading -------------------------------------------------------------------------------

  function Flat(chunks: seq<string>): string {
    if chunks == [] then "" else chunks[0] + Flat(chunks[1..])
  }

  /** What `recv` may return until the connection ends: between 1 and 4096 characters at a time. */
  predicate AreChunks(chunks: seq<string>) {
    forall i :: 0 <= i < |chunks| ==> 0 < |chunks[i]| <= CHUNK_SIZE
  }

  datatype Read = Stop | Got(line: string, buffer: string, chunks: seq<string>)

  /** One call of `read_line` on a buffer and what is still to come. */
  function ReadOne(buffer: string, chunks: seq<string>): (r: Read)
    ensures r.Got? ==> |r.buffer| + |Flat(r.chunks)| < |buffer| + |Flat(chunks)|
    decreases |chunks|
  {
    var k := FirstLf(buffer);
    if k < |buffer| then Got(DropCr(buffer[..k]), buffer[k + 1..], chunks)
    else if |buffer| > MAX_LINE_LENGTH || chunks == [] then Stop
    else ReadOne(buffer + chunks[0], chunks[1..])
  }

  /** The lines the server handles until the connection ends or is given up. */
  function ReadAll(buffer: string, chunks: seq<string>): seq<string>
    decreases |buffer| + |Flat(chunks)|
  {
    match ReadOne(buffer, chunks)
    case Stop => []
    case Got(line, buffer', chunks') => [line] + ReadAll(buffer', chunks')
  }

  lemma FirstLfUnique(s: string, k: nat)
    requires k <= |s| && (k < |s| ==> s[k] == '\n') && forall i :: 0 <= i < k ==> s[i] != '\n'
    ensures FirstLf(s) == k
  {
  }

  lemma FirstLfOfSum(a: string, b: string)
    ensures FirstLf(a) < |a| ==> FirstLf(a + b) == FirstLf(a)
    ensures FirstLf(a) == |a| ==> FirstLf(a + b) == |a| + FirstLf(b)
  {
    var k := if FirstLf(a) < |a| then FirstLf(a) else |a| + FirstLf(b);
    FirstLfUnique(a + b, k);
  }

  lemma FrontOfSum(a: string, b: string, k: nat)
    requires k < |a|
    ensures (a + b)[..k] == a[..k] && (a + b)[k + 1..] == a[k + 1..] + b
  {
  }

  // ---- lines as they are ---------------------------------------------------------------------

  /** The lines of a stream, as they are; a tail without a line feed is no line yet. */
  function RawLines(s: string): seq<string>
    decreases |s|
  {
    var k := FirstLf(s);
    if k == |s| then [] else [s[..k]] + RawLines(s[k + 1..])
  }

  function Tail(s: string): string
    decreases |s|
  {
    var k := FirstLf(s);
    if k == |s| then s else Tail(s[k + 1..])
  }

  /** Reading a stream in two parts: the lines of the first, then those of its tail with the second. */
  lemma {:induction false} LinesOfSum(a: string, b: string)
    ensures RawLines(a + b) == RawLines(a) + RawLines(Tail(a) + b)
    ensures Tail(a + b) == Tail(Tail(a) + b)
    decreases |a|
  {
    hide FirstLf, RawLines, Tail;
    var k := FirstLf(a);
    FirstLfOfSum(a, b);
    LinesStep(a);
    LinesStep(a + b);
    if k < |a| {
      FrontOfSum(a, b, k);
      LinesOfSum(a[k + 1..], b);
      OneBefore(a[..k], RawLines(a[k + 1..]), RawLines(Tail(a) + b));
    } else {
      assert [] + RawLines(a + b) == RawLines(a + b);
    }
  }

  lemma {:induction false} LinesStep(s: string)
    ensures
      var k := FirstLf(s);
      if k == |s| then RawLines(s) == [] && Tail(s) == s
      else RawLines(s) == [s[..k]] + RawLines(s[k + 1..]) && Tail(s) == Tail(s[k + 1..])
  {
    hide FirstLf;
  }

  lemma OneBefore(line: string, a: seq<string>, b: seq<string>)
    ensures [line] + (a + b) == ([line] + a) + b
  {
  }

  lemma {:induction false} TailHasNoLf(s: string)
    ensures FirstLf(Tail(s)) == |Tail(s)|
    decreases |s|
  {
    var k := FirstLf(s);
    if k < |s| {
      TailHasNoLf(s[k + 1..]);
    }
  }

  /** A text without line feeds and one line feed behind it: one line. */
  lemma OneLine(text: string)
    requires FirstLf(text) == |text|
    ensures RawLines(text + "\n") == [text] && Tail(text + "\n") == ""
  {
    assert FirstLf("\n") == 0;
    FirstLfOfSum(text, "\n");
    assert (text + "\n")[..|text|] == text && (text + "\n")[|text| + 1..] == "";
  }

  // ---- what lines are ------------------------------------------------------------------------

  function Terminated(lines: seq<string>): string {
    if lines == [] then "" else (lines[0] + "\n") + Terminated(lines[1..])
  }

  predicate NoLf(line: string) {
    forall i :: 0 <= i < |line| ==> line[i] != '\n'
  }

  /** The stream is its lines, each with a line feed behind it, and an unterminated tail; line feeds are nowhere
      else. */
  lemma {:induction false} StreamIsItsLines(s: string)
    ensures Terminated(RawLines(s)) + Tail(s) == s
    ensures NoLf(Tail(s)) && forall i :: 0 <= i < |RawLines(s)| ==> NoLf(RawLines(s)[i])
    decreases |s|
  {
    hide RawLines, Tail;
    LinesStep(s);
    var k := FirstLf(s);
    if k < |s| {
      var rest := s[k + 1..];
      StreamIsItsLines(rest);
      assert RawLines(s)[1..] == RawLines(rest);
      assert (s[..k] + "\n") + rest == s;
      Regrouped(s[..k] + "\n", Terminated(RawLines(rest)), Tail(rest));
    } else {
      assert Terminated(RawLines(s)) + s == s;
    }
  }

  lemma Regrouped(a: string, b: string, c: string)
    ensures (a + b) + c == a + (b + c)
  {
  }

  /** What the server handles: each line without the one carriage return it may end with. */
  lemma {:induction false} LinesMean(s: string)
    ensures |Lines(s)| == |RawLines(s)|
    ensures forall i :: 0 <= i < |RawLines(s)| ==>
              var line := RawLines(s)[i];
              if line != "" && line[|line| - 1] == 13 as char then line == Lines(s)[i] + [13 as char] else line == Lines(s)[i]
    decreases |s|
  {
    hide FirstLf;
    var k := FirstLf(s);
    if k < |s| {
      LinesMean(s[k + 1..]);
      var line := s[..k];
      assert line != "" ==> line == line[..|line| - 1] + [line[|line| - 1]];
    }
  }

  /** The lines are short exactly if none has more than 8192 characters before its line feed. */
  lemma {:induction false} ShortLinesMean(s: string)
    ensures ShortLines(s) <==> forall i :: 0 <= i < |RawLines(s)| ==> |RawLines(s)[i]| <= 8192
    decreases |s|
  {
    hide FirstLf;
    LinesStep(s);
    var k := FirstLf(s);
    if k < |s| {
      var rest := s[k + 1..];
      ShortLinesMean(rest);
      assert RawLines(s)[0] == s[..k] && RawLines(s)[1..] == RawLines(rest);
      assert forall i :: 0 <= i < |RawLines(rest)| ==> RawLines(rest)[i] == RawLines(s)[i + 1];
    }
  }

  // ---- reading in chunks ---------------------------------------------------------------------

  /** With short lines one call returns the first line of the whole stream and leaves the rest, or stops
      because no further line is terminated. */
  lemma {:induction false} ReadOneIsFirst(buffer: string, chunks: seq<string>)
    requires ShortLines(buffer + Flat(chunks))
    ensures
      var s := buffer + Flat(chunks);
      var k := FirstLf(s);
      match ReadOne(buffer, chunks)
      case Stop => k == |s|
      case Got(line, buffer', chunks') => k < |s| && line == DropCr(s[..k]) && buffer' + Flat(chunks') == s[k + 1..]
    decreases |chunks|
  {
    hide FirstLf, DropCr;
    var s := buffer + Flat(chunks);
    FirstLfOfSum(buffer, Flat(chunks));
    var k := FirstLf(buffer);
    if k < |buffer| {
      FrontOfSum(buffer, Flat(chunks), k);
    } else if |buffer| > MAX_LINE_LENGTH || chunks == [] {
    } else {
      assert (buffer + chunks[0]) + Flat(chunks[1..]) == s;
      ReadOneIsFirst(buffer + chunks[0], chunks[1..]);
    }
  }

  /** As long as no terminated line is longer than 8192 characters, any division of the stream into chunks
      gives the lines of the stream. */
  lemma {:induction false} ReadAllIsLines(buffer: string, chunks: seq<string>)
    requires ShortLines(buffer + Flat(chunks))
    ensures ReadAll(buffer, chunks) == Lines(buffer + Flat(chunks))
    decreases |buffer| + |Flat(chunks)|
  {
    hide ReadOne, FirstLf;
    ReadOneIsFirst(buffer, chunks);
    match ReadOne(buffer, chunks) {
      case Stop =>
      case Got(line, buffer', chunks') => ReadAllIsLines(buffer', chunks');
    }
  }

  // ---- the limit is exact --------------------------------------------------------------------

  /** The stream one character at a time. */
  function Singles(s: string): seq<string> {
    seq(|s|, i requires 0 <= i < |s| => [s[i]])
  }

  lemma {:induction false} FlatSingles(s: string)
    ensures Flat(Singles(s)) == s
    decreases |s|
  {
    if s != "" {
      FlatSingles(s[1..]);
      assert Singles(s)[1..] == Singles(s[1..]);
      assert s == [s[0]] + s[1..];
    }
  }

  /** Reading one character at a time, a line is returned exactly if it has at most 8192 characters. */
  lemma {:induction false} ReadOneSlowly(buffer: string, s: string)
    requires FirstLf(buffer) == |buffer| <= MAX_LINE_LENGTH + 1
    ensures
      var k := |buffer| + FirstLf(s);
      ReadOne(buffer, Singles(s)) ==
        if FirstLf(s) < |s| && k <= MAX_LINE_LENGTH then Got(DropCr(buffer + s[..FirstLf(s)]), "", Singles(s[FirstLf(s) + 1..])) else Stop
    decreases |s|
  {
    hide FirstLf, DropCr, ReadOne, Singles;
    if s == "" || |buffer| > MAX_LINE_LENGTH {
      NoMoreRoom(buffer, s);
    } else {
      var c, rest := s[0], s[1..];
      FirstLfOfOne(c);
      FirstLfOfSum([c], rest);
      assert [c] + rest == s;
      OneMoreChar(buffer, s);
      if c == '\n' {
        assert buffer + s[..0] == buffer;
      } else {
        FirstLfOfSum(buffer, [c]);
        ReadOneSlowly(buffer + [c], rest);
        if FirstLf(rest) < |rest| {
          MoveFirst(buffer, s, FirstLf(rest));
        }
      }
    }
  }

  lemma NoMoreRoom(buffer: string, s: string)
    requires FirstLf(buffer) == |buffer| && (s == "" || |buffer| > MAX_LINE_LENGTH)
    ensures ReadOne(buffer, Singles(s)) == Stop && (s == "" ==> FirstLf(s) == 0)
  {
    hide FirstLf;
    if s == "" {
      FirstLfUnique(s, 0);
    }
  }

  /** The next character joins the buffer; if it is a line feed, the buffer was the line. */
  lemma OneMoreChar(buffer: string, s: string)
    requires s != "" && FirstLf(buffer) == |buffer| <= MAX_LINE_LENGTH
    ensures ReadOne(buffer, Singles(s)) ==
              if s[0] == '\n' then Got(DropCr(buffer), "", Singles(s[1..])) else ReadOne(buffer + [s[0]], Singles(s[1..]))
  {
    hide FirstLf, DropCr;
    SinglesSplit(s);
    if s[0] == '\n' {
      FirstLfOfOne(s[0]);
      FirstLfOfSum(buffer, [s[0]]);
      CutAfter(buffer, s[0]);
    }
  }

  lemma SinglesSplit(s: string)
    requires s != ""
    ensures Singles(s) != [] && Singles(s)[0] == [s[0]] && Singles(s)[1..] == Singles(s[1..])
  {
  }

  lemma FirstLfOfOne(c: char)
    ensures FirstLf([c]) == if c == '\n' then 0 else 1
  {
  }

  lemma CutAfter(buffer: string, c: char)
    ensures (buffer + [c])[..|buffer|] == buffer && (buffer + [c])[|buffer| + 1..] == ""
  {
  }

  lemma MoveFirst(buffer: string, s: string, k: nat)
    requires s != "" && k < |s|
    ensures (buffer + [s[0]]) + s[1..][..k] == buffer + s[..k + 1]
    ensures k + 1 < |s| ==> s[1..][k + 1..] == s[k + 2..]
  {
  }

  lemma {:induction false} LongLinesAreLost(s: string)
    requires !ShortLines(s)
    ensures |ReadAll("", Singles(s))| < |Lines(s)|
    decreases |s|
  {
    hide FirstLf, ReadOne;
    var k := FirstLf(s);
    assert FirstLf("") == 0 by { FirstLfUnique("", 0); }
    ReadOneSlowly("", s);
    FlatSingles(s);
    if k <= MAX_LINE_LENGTH {
      FlatSingles(s[k + 1..]);
      LongLinesAreLost(s[k + 1..]);
    }
  }

  /** Framing does not depend on the chunks exactly for the streams whose terminated lines have at most
      8192 characters. */
  lemma FramingIsChunkIndependent(s: string)
    ensures ShortLines(s) <==>
              forall chunks {:trigger Flat(chunks)} :: AreChunks(chunks) && Flat(chunks) == s ==> ReadAll("", chunks) == Lines(s)
  {
    hide ReadOne, FirstLf, ReadAll, Lines, ShortLines;
    if ShortLines(s) {
      forall chunks | AreChunks(chunks) && Flat(chunks) == s ensures ReadAll("", chunks) == Lines(s) {
        assert "" + s == s;
        ReadAllIsLines("", chunks);
      }
    } else {
      FlatSingles(s);
      LongLinesAreLost(s);
      assert AreChunks(Singles(s));
    }
  }

  // ---- the reader object ---------------------------------------------------------------------

  class Session {
    var recvBuffer: string
    var incoming: seq<string>  // what `recv` will return

    constructor (chunks: seq<string>)
      ensures recvBuffer == "" && incoming == chunks
    {
      recvBuffer, incoming := "", chunks;
    }

    /** `find` of the first line feed. */
    method FindLf() returns (k: nat)
      ensures k == FirstLf(recvBuffer)
    {
      k := 0;
      while k < |recvBuffer| && recvBuffer[k] != '\n'
        invariant k <= |recvBuffer| && forall i :: 0 <= i < k ==> recvBuffer[i] != '\n'
      {
        k := k + 1;
      }
      FirstLfUnique(recvBuffer, k);
    }

    /** `read_line`: it does what `ReadOne` says, and never buffers more than 12288 characters. */
    method ReadLine() returns (ok: bool, line: string)
      requires AreChunks(incoming) && |recvBuffer| <= 12288
      modifies this
      ensures AreChunks(incoming) && |recvBuffer| <= 12288
      ensures
        match ReadOne(old(recvBuffer), old(incoming))
        case Stop => !ok
        case Got(l, buffer, chunks) => ok && line == l && recvBuffer == buffer && incoming == chunks
    {
      line := "";
      var k := FindLf();
      while k == |recvBuffer|
        invariant k == FirstLf(recvBuffer)
        invariant AreChunks(incoming) && |recvBuffer| <= MAX_LINE_LENGTH + CHUNK_SIZE
        invariant ReadOne(recvBuffer, incoming) == ReadOne(old(recvBuffer), old(incoming))
        decreases |incoming|
      {
        if |recvBuffer| > MAX_LINE_LENGTH { return false, line; }
        if incoming == [] { return false, line; }
        recvBuffer, incoming := recvBuffer + incoming[0], incoming[1..];
        k := FindLf();
      }
      line := recvBuffer[..k];
      if line != "" && line[|line| - 1] == '\r' {
        line := line[..|line| - 1];
      }
      recvBuffer := recvBuffer[k + 1..];
      ok := true;
    }
  }
}
