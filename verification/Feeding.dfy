/** Feeding a stream to the interface, whose buffer is bounded: when the whole stream gets in, when it gets
    stuck, and when the notice of a disconnection is seen. */
module Feeding {
  import opened LineReader
  import opened Relay
  import opened UiStream

  const EMPTY := UiState("", [])

  /** The pieces that a sequence of reads brings: each holds something and fits into the space then free. */
  ghost predicate CanFeed(u: UiState, pieces: seq<string>)
    decreases |pieces|
  {
    pieces == []
    || (pieces[0] != "" && |u.buffer| + |pieces[0]| <= BUFF_SIZE && CanFeed(TakeIn(u, pieces[0]), pieces[1..]))
  }

  function Feed(u: UiState, pieces: seq<string>): UiState
    decreases |pieces|
  {
    if pieces == [] then u else Feed(TakeIn(u, pieces[0]), pieces[1..])
  }

  /** Reads that bring in the beginning of a stream. */
  ghost predicate IsFeed(s: string, pieces: seq<string>) {
    CanFeed(EMPTY, pieces) && Flat(pieces) <= s
  }

  predicate Full(u: UiState) {
    |u.buffer| == BUFF_SIZE
  }

  /** Reads that cannot go on: the stream is in, or there is no space. */
  ghost predicate IsFinalFeed(s: string, pieces: seq<string>) {
    IsFeed(s, pieces) && (Flat(pieces) == s || Full(Feed(EMPTY, pieces)))
  }

  // ---- what has been read --------------------------------------------------------------------

  /** What the interface is after it has read `a`. */
  function Having(a: string): UiState {
    UiState(Tail(a), Messages(a))
  }

  lemma ReadHaving(a: string, piece: string)
    ensures TakeIn(Having(a), piece) == Having(a + piece)
  {
    LinesOfSum(a, piece);
    MessagesOfSum(a, piece);
  }

  lemma {:induction false} FeedHaving(a: string, pieces: seq<string>)
    requires CanFeed(Having(a), pieces) && LinesFit(a)
    ensures Feed(Having(a), pieces) == Having(a + Flat(pieces)) && LinesFit(a + Flat(pieces))
    decreases |pieces|
  {
    hide Having, LinesFit, TakeIn;
    if pieces == [] {
      assert a + Flat(pieces) == a;
    } else {
      ReadHaving(a, pieces[0]);
      PieceFits(a, pieces[0]);
      FeedHaving(a + pieces[0], pieces[1..]);
      assert (a + pieces[0]) + Flat(pieces[1..]) == a + Flat(pieces);
    }
  }

  lemma PieceFits(a: string, piece: string)
    requires LinesFit(a) && |Having(a).buffer| + |piece| <= BUFF_SIZE
    ensures LinesFit(a + piece)
  {
    ShortTextFits(Tail(a) + piece);
    LinesFitOfSum(a, piece);
  }

  /** After any reads the interface has dispatched the messages of what it read, all of it in lines that fit. */
  lemma FedState(s: string, pieces: seq<string>)
    requires IsFeed(s, pieces)
    ensures Feed(EMPTY, pieces) == Having(Flat(pieces)) && LinesFit(Flat(pieces))
  {
    hide FirstLf;
    NothingYetRead();
    FeedHaving("", pieces);
    assert "" + Flat(pieces) == Flat(pieces);
  }

  lemma NothingYetRead()
    ensures Having("") == EMPTY && LinesFit("")
  {
    NothingYet("");
  }

  // ---- room to go on -------------------------------------------------------------------------

  /** Before the last character of a stream that fits, the waiting part leaves room. */
  lemma {:induction false} RoomBeforeEnd(a: string, b: string)
    requires LinesFit(a + b) && b != ""
    ensures |Tail(a)| < BUFF_SIZE
    decreases |a|
  {
    var k := FirstLf(a);
    FirstLfOfSum(a, b);
    if k < |a| {
      FrontOfSum(a, b, k);
      RoomBeforeEnd(a[k + 1..], b);
    }
  }

  lemma {:induction false} FeedMore(u: UiState, pieces: seq<string>, piece: string)
    requires CanFeed(u, pieces) && piece != "" && |Feed(u, pieces).buffer| + |piece| <= BUFF_SIZE
    ensures CanFeed(u, pieces + [piece])
    decreases |pieces|
  {
    hide TakeIn;
    if pieces != [] {
      assert (pieces + [piece])[1..] == pieces[1..] + [piece];
      FeedMore(TakeIn(u, pieces[0]), pieces[1..], piece);
    }
  }

  lemma {:induction false} FlatMore(pieces: seq<string>, piece: string)
    ensures Flat(pieces + [piece]) == Flat(pieces) + piece
    decreases |pieces|
  {
    if pieces != [] {
      assert (pieces + [piece])[1..] == pieces[1..] + [piece];
      FlatMore(pieces[1..], piece);
      assert (pieces + [piece])[0] == pieces[0];
    } else {
      assert Flat([piece]) == piece + Flat([]);
    }
  }

  /** Reading one character at a time from where it is, the interface comes to a final feed. */
  lemma {:induction false} Finishing(s: string, pieces: seq<string>) returns (all: seq<string>)
    requires IsFeed(s, pieces)
    ensures IsFinalFeed(s, all)
    decreases |s| - |Flat(pieces)|
  {
    hide CanFeed, Feed;
    if Flat(pieces) == s || Full(Feed(EMPTY, pieces)) {
      all := pieces;
    } else {
      FedState(s, pieces);
      assert |Feed(EMPTY, pieces).buffer| < BUFF_SIZE by { TailIsBounded(Flat(pieces)); }
      var n := |Flat(pieces)|;
      FeedMore(EMPTY, pieces, [s[n]]);
      FlatMore(pieces, [s[n]]);
      assert Flat(pieces) + [s[n]] == s[..n + 1];
      all := Finishing(s, pieces + [[s[n]]]);
    }
  }

  lemma {:induction false} TailIsBounded(s: string)
    requires LinesFit(s)
    ensures |Tail(s)| <= BUFF_SIZE
    decreases |s|
  {
    var k := FirstLf(s);
    if k < |s| { TailIsBounded(s[k + 1..]); }
  }

  /** The whole stream gets in, however it is read, exactly if every line is shorter than 1024 characters and
      the tail has at most 1024. Otherwise no way of reading gets it in: sooner or later the buffer is full. */
  lemma FeedingSucceeds(s: string)
    ensures LinesFit(s) <==> forall pieces :: IsFinalFeed(s, pieces) ==> Flat(pieces) == s
    ensures !LinesFit(s) ==> forall pieces :: IsFinalFeed(s, pieces) ==> Flat(pieces) != s && Full(Feed(EMPTY, pieces))
  {
    hide LinesFit, CanFeed, Feed;
    forall pieces | IsFinalFeed(s, pieces) ensures Flat(pieces) == s <==> LinesFit(s) {
      FinalMeansFits(s, pieces);
    }
    assert IsFeed(s, []) by { NoFeed(s); }
    var all := Finishing(s, []);
  }

  lemma NoFeed(s: string)
    ensures IsFeed(s, [])
  {
  }

  lemma FinalMeansFits(s: string, pieces: seq<string>)
    requires IsFinalFeed(s, pieces)
    ensures Flat(pieces) == s <==> LinesFit(s)
  {
    hide LinesFit, CanFeed, Feed;
    FedState(s, pieces);
    RestLeavesRoom(s, Flat(pieces));
  }

  lemma RestLeavesRoom(s: string, a: string)
    requires a <= s
    ensures LinesFit(s) && a != s ==> |Tail(a)| < BUFF_SIZE
  {
    hide LinesFit, Tail;
    var b := s[|a|..];
    assert a + b == s;
    if LinesFit(s) && a != s {
      RoomBeforeEnd(a, b);
    }
  }

  /** Once it is all in, exactly its messages have been dispatched. */
  lemma WholeStreamIsDispatched(s: string, pieces: seq<string>)
    requires IsFinalFeed(s, pieces) && LinesFit(s)
    ensures Feed(EMPTY, pieces).dispatched == Messages(s)
  {
    hide LinesFit, CanFeed, Feed, Messages;
    FinalMeansFits(s, pieces);
    FedState(s, pieces);
  }

  /** A full buffer stays full: no read can bring anything, so nothing will ever be dispatched again. */
  lemma StalledForGood(s: string, pieces: seq<string>, more: seq<string>)
    requires IsFeed(s, pieces) && Full(Feed(EMPTY, pieces)) && CanFeed(Feed(EMPTY, pieces), more)
    ensures more == [] && Feed(Feed(EMPTY, pieces), more) == Feed(EMPTY, pieces)
  {
  }

  /** The same of the interface object: a read into a full buffer changes nothing. */
  method ReadWhenFull(ui: Interface, bytes: string)
    requires ui.Valid() && ui.toGameSize == BUFF_SIZE && |bytes| <= BUFF_SIZE - ui.toGameSize
    modifies ui, ui.toGameBuffer
    ensures ui.Valid() && ui.dispatched == old(ui.dispatched) && ui.toGameSize == BUFF_SIZE
  {
    ghost var content := ui.toGameBuffer[..ui.toGameSize];
    TailHasNoLf(ui.received);
    NothingYet(content);
    assert content + bytes == content;
    ui.ReadFromServer(bytes);
    assert |ui.View().buffer| == BUFF_SIZE;
  }

  // ---- the notice ----------------------------------------------------------------------------

  /** Everything the relay passes on when the server hangs up. */
  function Relayed(toGame: string, content: string): string {
    toGame + WithNotice(content)
  }

  /** What the relay passes on before the notice. */
  function Before(toGame: string, content: string): string {
    toGame + Kept(content)
  }

  /** The interface, reading as far as it can, dispatches the notice as a message of its own behind all that
      came before exactly if every line relayed fits its buffer and the relay had to cut its own buffer, or
      everything read from the server ended with a line feed or was nothing at all. */
  lemma DisconnectionIsAnnounced(toGame: string, content: string, pieces: seq<string>)
    requires |content| <= BUFF_SIZE && IsFinalFeed(Relayed(toGame, content), pieces)
    ensures
      var whole := toGame + content;
      Feed(EMPTY, pieces).dispatched == Messages(Before(toGame, content)) + [ERR_SERVER_DISC] <==>
        && LinesFit(Relayed(toGame, content))
        && (|content| + |ERR_SERVER_DISC| + 1 > BUFF_SIZE || whole == "" || whole[|whole| - 1] == '\n')
  {
    hide Messages, Kept, LinesFit, IsFinalFeed, Feed;
    EndsWithLf(Before(toGame, content));
    KeptEnd(toGame, content);
    RelayedEnds(toGame, content);
    AnnouncedBehind(Before(toGame, content), pieces);
  }

  lemma RelayedEnds(toGame: string, content: string)
    ensures Relayed(toGame, content) == Before(toGame, content) + (ERR_SERVER_DISC + "\n")
  {
    hide Kept;
  }

  lemma AnnouncedBehind(before: string, pieces: seq<string>)
    requires IsFinalFeed(before + (ERR_SERVER_DISC + "\n"), pieces)
    ensures Feed(EMPTY, pieces).dispatched == Messages(before) + [ERR_SERVER_DISC]
       <==> LinesFit(before + (ERR_SERVER_DISC + "\n")) && Tail(before) == ""
  {
    hide Messages, Tail, LinesFit, CanFeed, Feed, Flat;
    var s := before + (ERR_SERVER_DISC + "\n");
    FinalMeansFits(s, pieces);
    if LinesFit(s) {
      WholeStreamIsDispatched(s, pieces);
      NoticeIsSeen(before);
      SameLast(Messages(before), Tail(before) + ERR_SERVER_DISC, ERR_SERVER_DISC);
      LongerDiffers(Tail(before), ERR_SERVER_DISC);
    } else {
      FedState(s, pieces);
      ShortOfTheEnd(Flat(pieces), before);
    }
  }

  lemma SameLast(a: seq<string>, x: string, y: string)
    ensures a + [x] == a + [y] <==> x == y
  {
    assert (a + [x])[|a|] == x && (a + [y])[|a|] == y;
  }

  /** Without its last character the stream holds no message more than came before the notice. */
  lemma ShortOfTheEnd(a: string, before: string)
    requires a <= before + (ERR_SERVER_DISC + "\n") && a != before + (ERR_SERVER_DISC + "\n")
    ensures |Messages(a)| <= |Messages(before)|
  {
    hide Messages, Tail;
    var most := before + ERR_SERVER_DISC;
    assert before + (ERR_SERVER_DISC + "\n") == most + "\n";
    assert a <= most;
    MessagesOfSum(a, most[|a|..]);
    assert a + most[|a|..] == most;
    MessagesOfSum(before, ERR_SERVER_DISC);
    NoticeIsLine();
    TailHasNoLf(before);
    NoLfOfSum(Tail(before), ERR_SERVER_DISC);
    NothingYet(Tail(before) + ERR_SERVER_DISC);
  }

  /** 1500 characters without a line feed block the interface: although everything relayed ends with a line
      feed, the notice behind them is never seen. */
  lemma LongLineHidesNotice(line: string, pieces: seq<string>)
    requires |line| == 1500 && FirstLf(line) == |line| && IsFinalFeed(Relayed(line, "\n"), pieces)
    ensures Feed(EMPTY, pieces).dispatched != Messages(Before(line, "\n")) + [ERR_SERVER_DISC]
  {
    hide IsFinalFeed, Feed, Messages, Kept;
    FirstLfOfSum(line, WithNotice("\n"));
    DisconnectionIsAnnounced(line, "\n", pieces);
  }
}
