/** The interface's end of the relay: a fixed buffer cut into messages at line feeds, and what that means
    for the whole way from the server to the interface. */
module UiStream {
  import opened LineReader
  import opened Relay

  function NonEmpty(lines: seq<string>): seq<string> {
    if lines == [] then [] else (if lines[0] == "" then [] else [lines[0]]) + NonEmpty(lines[1..])
  }

  /** The messages of a stream: its lines that are not empty. */
  function Messages(s: string): seq<string> {
    NonEmpty(RawLines(s))
  }

  lemma {:induction false} NonEmptyOfSum(a: seq<string>, b: seq<string>)
    ensures NonEmpty(a + b) == NonEmpty(a) + NonEmpty(b)
  {
    if a == [] {
      assert a + b == b;
    } else {
      assert (a + b)[1..] == a[1..] + b;
      NonEmptyOfSum(a[1..], b);
    }
  }

  lemma MessagesOfSum(a: string, b: string)
    ensures Messages(a + b) == Messages(a) + Messages(Tail(a) + b)
  {
    LinesOfSum(a, b);
    NonEmptyOfSum(RawLines(a), RawLines(Tail(a) + b));
  }

  /** What waits in the interface's buffer, and what it has dispatched. */
  datatype UiState = UiState(buffer: string, dispatched: seq<string>)

  /** One read: what comes in goes behind what waits, and every complete line goes out. */
  function TakeIn(u: UiState, piece: string): UiState {
    UiState(Tail(u.buffer + piece), u.dispatched + Messages(u.buffer + piece))
  }

  /** Every terminated line is shorter than the buffer, and the tail is no longer than it. */
  predicate LinesFit(s: string)
    decreases |s|
  {
    var k := FirstLf(s);
    if k == |s| then k <= BUFF_SIZE else k < BUFF_SIZE && LinesFit(s[k + 1..])
  }

  /** A stream fits exactly if each of its lines has at most 1023 characters and what is left at most 1024. */
  lemma {:induction false} LinesFitMeans(s: string)
    ensures LinesFit(s) <==> |Tail(s)| <= 1024 && forall i :: 0 <= i < |RawLines(s)| ==> |RawLines(s)[i]| <= 1023
    decreases |s|
  {
    hide FirstLf;
    LinesStep(s);
    var k := FirstLf(s);
    if k < |s| {
      var rest := s[k + 1..];
      LinesFitMeans(rest);
      assert RawLines(s)[0] == s[..k] && RawLines(s)[1..] == RawLines(rest);
      assert forall i :: 0 <= i < |RawLines(rest)| ==> RawLines(rest)[i] == RawLines(s)[i + 1];
    }
  }

  lemma {:induction false} LinesFitOfSum(a: string, b: string)
    requires LinesFit(a) && LinesFit(Tail(a) + b)
    ensures LinesFit(a + b)
    decreases |a|
  {
    var k := FirstLf(a);
    FirstLfOfSum(a, b);
    if k < |a| {
      FrontOfSum(a, b, k);
      LinesFitOfSum(a[k + 1..], b);
    }
  }

  lemma {:induction false} ShortTextFits(s: string)
    requires |s| <= BUFF_SIZE
    ensures LinesFit(s)
    decreases |s|
  {
    var k := FirstLf(s);
    if k < |s| {
      ShortTextFits(s[k + 1..]);
    }
  }

  class Interface {
    const toGameBuffer: array<char>
    var toGameSize: nat
    var dispatched: seq<string>
    ghost var received: string

    /** Every message received so far was dispatched, in order; the rest of the stream waits in the buffer. */
    ghost predicate Valid()
      reads this, toGameBuffer
    {
      && toGameBuffer.Length == BUFF_SIZE && toGameSize <= BUFF_SIZE
      && toGameBuffer[..toGameSize] == Tail(received)
      && dispatched == Messages(received)
      && LinesFit(received)
    }

    /** The part of the state that decides how it goes on. */
    ghost function View(): UiState
      requires Valid()
      reads this, toGameBuffer
    {
      UiState(toGameBuffer[..toGameSize], dispatched)
    }

    constructor ()
      ensures Valid() && received == "" && fresh(toGameBuffer)
    {
      toGameBuffer := new char[BUFF_SIZE];
      toGameSize, dispatched, received := 0, [], "";
    }

    /** `memchr` of the line feed in the used part of the buffer. */
    method FindTerm() returns (k: nat)
      requires toGameSize <= toGameBuffer.Length
      ensures k == FirstLf(toGameBuffer[..toGameSize])
    {
      k := 0;
      while k < toGameSize && toGameBuffer[k] != COMMAND_TERM
        invariant k <= toGameSize && forall i :: 0 <= i < k ==> toGameBuffer[..toGameSize][i] != '\n'
      {
        k := k + 1;
      }
      FirstLfUnique(toGameBuffer[..toGameSize], k);
    }

    /** The text up to the line feed at `k`; it leaves the buffer together with the line feed. */
    method TakeMessage(k: nat) returns (msg: string)
      requires k < toGameSize <= toGameBuffer.Length
      modifies this`toGameSize, toGameBuffer
      ensures toGameSize == old(toGameSize) - (k + 1)
      ensures msg == old(toGameBuffer[..toGameSize])[..k]
      ensures toGameBuffer[..toGameSize] == old(toGameBuffer[..toGameSize])[k + 1..]
    {
      msg := toGameBuffer[..k];
      toGameSize := toGameSize - (k + 1);
      MoveDown(toGameBuffer, k + 1, toGameSize);
    }

    /** `splitIntoMessages`: every complete line leaves the buffer, and the non-empty ones are dispatched. */
    method SplitIntoMessages()
      requires toGameSize <= toGameBuffer.Length
      modifies this`toGameSize, this`dispatched, toGameBuffer
      ensures toGameSize <= old(toGameSize)
      ensures dispatched == old(dispatched) + Messages(old(toGameBuffer[..toGameSize]))
      ensures toGameBuffer[..toGameSize] == Tail(old(toGameBuffer[..toGameSize]))
    {
      hide Messages, RawLines, Tail, FirstLf, NonEmpty;
      ghost var whole := toGameBuffer[..toGameSize];
      while true
        invariant toGameSize <= old(toGameSize)
        invariant dispatched + Messages(toGameBuffer[..toGameSize]) == old(dispatched) + Messages(whole)
        invariant Tail(toGameBuffer[..toGameSize]) == Tail(whole)
        decreases toGameSize
      {
        var k := FindTerm();
        if k == toGameSize { break; }
        ghost var content, before := toGameBuffer[..toGameSize], dispatched;
        var msg := TakeMessage(k);
        FirstMessage(content);
        if k != 0 {
          dispatched := dispatched + [msg];
        }
        Regroup(before, if k == 0 then [] else [msg], Messages(content[k + 1..]));
      }
      NothingYet(toGameBuffer[..toGameSize]);
    }

    static lemma Regroup(a: seq<string>, b: seq<string>, c: seq<string>)
      ensures a + (b + c) == (a + b) + c && a + [] == a
    {
    }


    static lemma FirstMessage(s: string)
      requires FirstLf(s) < |s|
      ensures Messages(s) == (if FirstLf(s) == 0 then [] else [s[..FirstLf(s)]]) + Messages(s[FirstLf(s) + 1..])
      ensures Tail(s) == Tail(s[FirstLf(s) + 1..])
    {
      var rest := RawLines(s[FirstLf(s) + 1..]);
      assert ([s[..FirstLf(s)]] + rest)[1..] == rest;
    }

    /** `readFromServer`: characters that fit into the free space, then the splitting. */
    method ReadFromServer(bytes: string)
      requires Valid() && |bytes| <= BUFF_SIZE - toGameSize
      modifies this, toGameBuffer
      ensures Valid() && received == old(received) + bytes && View() == TakeIn(old(View()), bytes)
    {
      hide Messages, RawLines, Tail, LinesFit, FirstLf;
      ghost var past, tail := received, toGameBuffer[..toGameSize];
      if bytes == "" {
        assert past + bytes == past && tail + bytes == tail && dispatched + [] == dispatched;
        TailHasNoLf(past);
        NothingYet(tail);
        return;
      }
      CopyIn(toGameBuffer, toGameSize, bytes);
      assert toGameBuffer[..toGameSize + |bytes|] == tail + bytes;
      toGameSize := toGameSize + |bytes|;
      SplitIntoMessages();
      received := received + bytes;
      LinesOfSum(past, bytes);
      MessagesOfSum(past, bytes);
      ShortTextFits(tail + bytes);
      LinesFitOfSum(past, bytes);
    }
  }

  // ---- from the server to the interface ------------------------------------------------------

  /** While the connection is up, the interface has dispatched the first messages of what the relay read from
      the server, in order; what is left is in the relay's buffer, in the socket between them and in the
      interface's own buffer. Once the first two are empty nothing complete is left. */
  lemma MessagesArriveInOrder(relay: ClientHTTP, ui: Interface, inSocket: string)
    requires relay.Valid() && ui.Valid() && relay.toGame == ui.received + inSocket
    ensures
      var waiting := inSocket + relay.serverBuffer[..relay.serverBufferSize];
      && relay.fromServer == ui.received + waiting
      && Messages(relay.fromServer) == ui.dispatched + Messages(Tail(ui.received) + waiting)
      && (waiting == "" ==> ui.dispatched == Messages(relay.fromServer))
  {
    var waiting := inSocket + relay.serverBuffer[..relay.serverBufferSize];
    assert relay.fromServer == ui.received + waiting;
    MessagesOfSum(ui.received, waiting);
    if waiting == "" {
      assert relay.fromServer == ui.received;
    }
  }

  // ---- the notice of a disconnection ---------------------------------------------------------

  lemma NoticeIsLine()
    ensures FirstLf(ERR_SERVER_DISC) == |ERR_SERVER_DISC| && ERR_SERVER_DISC != ""
  {
    FirstLfUnique(ERR_SERVER_DISC, |ERR_SERVER_DISC|);
  }

  lemma NoLfOfSum(a: string, b: string)
    requires FirstLf(a) == |a| && FirstLf(b) == |b|
    ensures FirstLf(a + b) == |a + b|
  {
    FirstLfOfSum(a, b);
  }

  /** The interface gets the notice as a message of its own exactly if what was relayed before it ends with a
      complete line: a line cut off by the disconnection otherwise swallows the notice. */
  lemma NoticeIsSeen(before: string)
    ensures
      var messages := Messages(before + (ERR_SERVER_DISC + "\n"));
      && messages == Messages(before) + [Tail(before) + ERR_SERVER_DISC]
      && (messages[|messages| - 1] == ERR_SERVER_DISC <==> Tail(before) == "")
  {
    hide Messages, RawLines, Tail, FirstLf;
    var tail := Tail(before);
    NoticeIsLine();
    TailHasNoLf(before);
    NoLfOfSum(tail, ERR_SERVER_DISC);
    MessagesOfSum(before, ERR_SERVER_DISC + "\n");
    assert tail + (ERR_SERVER_DISC + "\n") == tail + ERR_SERVER_DISC + "\n";
    OneMessage(tail + ERR_SERVER_DISC);
    LongerDiffers(tail, ERR_SERVER_DISC);
  }

  /** With `OK {` relayed when the connection drops, the only message is a garbled one. */
  lemma CutLineSwallowsNotice()
    ensures Messages("OK {" + (ERR_SERVER_DISC + "\n")) == ["OK {" + ERR_SERVER_DISC]
  {
    hide Messages, Tail;
    assert FirstLf("OK {") == 4 by { FirstLfUnique("OK {", 4); }
    NoticeIsSeen("OK {");
    NothingYet("OK {");
  }

  lemma NothingYet(s: string)
    requires FirstLf(s) == |s|
    ensures Messages(s) == [] && Tail(s) == s
  {
  }

  lemma OneMessage(text: string)
    requires FirstLf(text) == |text| && text != ""
    ensures Messages(text + "\n") == [text]
  {
    OneLine(text);
    assert NonEmpty([text]) == [text];
  }

  lemma LongerDiffers(a: string, b: string)
    ensures a + b == b <==> a == ""
  {
    assert |a + b| == |a| + |b|;
    assert a == "" ==> a + b == b;
  }

  lemma {:induction false} EndsWithLf(s: string)
    ensures Tail(s) == "" <==> s == "" || s[|s| - 1] == '\n'
    decreases |s|
  {
    var k := FirstLf(s);
    if k < |s| {
      EndsWithLf(s[k + 1..]);
    }
  }

  lemma KeptEnd(toGame: string, content: string)
    requires |content| <= BUFF_SIZE
    ensures
      var before, whole := toGame + Kept(content), toGame + content;
      (before == "" || before[|before| - 1] == '\n') <==>
        |content| + |ERR_SERVER_DISC| + 1 > BUFF_SIZE || whole == "" || whole[|whole| - 1] == '\n'
  {
    NoticeFits(content);
  }
}
