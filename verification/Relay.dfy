/** The client's relay between the game interface and the server: two fixed buffers, filled behind and
    emptied in front, and the event masks that ask for writability. */
module Relay {

  const BUFF_SIZE := 1024
  const COMMAND_TERM := '\n'
  const ERR_SERVER_DISC := "ERR 900 CONNECTION_FAILED"
  const PRE_DISCONNECT_MSG := "QUIT"

  /** What a non-blocking read into some space gives: end of file, or characters that fit (maybe none). */
  datatype Input = EndOfFile | Data(bytes: string)

  /** What a non-blocking write of a buffer gives: a closed peer, or how many characters it took. */
  datatype Output = PeerClosed | Took(count: nat)

  datatype Events = Events(input: bool, output: bool)

  /** `memmove` of `count` characters from position `from` to the front. */
  method MoveDown(a: array<char>, from: nat, count: nat)
    requires from + count <= a.Length
    modifies a
    ensures a[..count] == old(a[from..from + count])
  {
    var i := 0;
    while i < count
      invariant i <= count
      invariant forall k :: 0 <= k < i ==> a[k] == old(a[from + k])
      invariant forall k :: i <= k < a.Length ==> a[k] == old(a[k])
    {
      a[i] := a[from + i];
      i := i + 1;
    }
  }

  /** Copy of a text into an array at a position. */
  method CopyIn(a: array<char>, at: nat, text: string)
    requires at + |text| <= a.Length
    modifies a
    ensures a[..at] == old(a[..at]) && a[at..at + |text|] == text
  {
    var i := 0;
    while i < |text|
      invariant i <= |text|
      invariant forall k :: 0 <= k < at ==> a[k] == old(a[k])
      invariant forall k :: 0 <= k < i ==> a[at + k] == text[k]
    {
      a[at + i] := text[i];
      i := i + 1;
    }
  }

  /** `find` of a word in a text. */
  predicate Contains(text: string, word: string) {
    |word| <= |text| && (text[..|word|] == word || (text != "" && Contains(text[1..], word)))
  }

  predicate StandsAt(text: string, word: string, i: nat) {
    i + |word| <= |text| && text[i..i + |word|] == word
  }

  /** The word stands somewhere in the text. */
  lemma {:induction false} ContainsMeans(text: string, word: string)
    ensures Contains(text, word) <==> exists i :: StandsAt(text, word, i)
    decreases |text|
  {
    hide StandsAt;
    AtTheFront(text, word);
    if text != "" {
      ContainsMeans(text[1..], word);
      forall i: nat ensures StandsAt(text[1..], word, i) <==> StandsAt(text, word, i + 1) { OneFurther(text, word, i); }
      if i: nat :| StandsAt(text, word, i) && i > 0 {
        assert StandsAt(text[1..], word, i - 1) <==> StandsAt(text, word, i - 1 + 1);
      }
    }
  }

  lemma AtTheFront(text: string, word: string)
    ensures StandsAt(text, word, 0) <==> |word| <= |text| && text[..|word|] == word
    ensures |word| > |text| ==> forall i :: !StandsAt(text, word, i)
    ensures text == "" ==> forall i :: StandsAt(text, word, i) ==> i == 0
  {
    if |word| <= |text| {
      assert text[0..0 + |word|] == text[..|word|];
    }
  }

  lemma OneFurther(text: string, word: string, i: nat)
    requires text != ""
    ensures StandsAt(text[1..], word, i) <==> StandsAt(text, word, i + 1)
  {
    if i + |word| <= |text| - 1 {
      assert text[1..][i..i + |word|] == text[i + 1..i + 1 + |word|];
    }
  }

  class ClientHTTP {
    const serverBuffer: array<char>
    var serverBufferSize: nat
    const gameBuffer: array<char>
    var gameBufferSize: nat
    var game: Events
    var server: Events
    var gameHup: bool
    var serverHup: bool
    var preStop: bool
    ghost var fromServer: string
    ghost var toGame: string
    ghost var fromGame: string
    ghost var toServer: string

    /** Both buffers are within their arrays. */
    ghost predicate Fits()
      reads this
    {
      && serverBuffer.Length == BUFF_SIZE && gameBuffer.Length == BUFF_SIZE && serverBuffer != gameBuffer
      && serverBufferSize <= BUFF_SIZE && gameBufferSize <= BUFF_SIZE
    }

    /** While the connection is up: what was read is what was written and what is buffered, and writability
        is asked for exactly on the side that has something coming. */
    ghost predicate Valid()
      reads this, serverBuffer, gameBuffer
    {
      && Fits()
      && fromServer == toGame + serverBuffer[..serverBufferSize]
      && fromGame == toServer + gameBuffer[..gameBufferSize]
      && game.input && server.input
      && (game.output <==> serverBufferSize > 0)
      && (server.output <==> gameBufferSize > 0)
    }

    constructor ()
      ensures Valid() && fresh(serverBuffer) && fresh(gameBuffer)
      ensures fromServer == "" && toGame == "" && fromGame == "" && toServer == "" && !preStop
    {
      serverBuffer := new char[BUFF_SIZE];
      gameBuffer := new char[BUFF_SIZE];
      serverBufferSize, gameBufferSize := 0, 0;
      game, server := Events(true, false), Events(true, false);
      gameHup, serverHup, preStop := false, false, false;
      fromServer, toGame, fromGame, toServer := "", "", "", "";
    }

    /** `handleDataFromServer`; `input` is what the socket gives into the free space. */
    method HandleDataFromServer(input: Input)
      requires Valid() && (input.Data? ==> |input.bytes| <= BUFF_SIZE - serverBufferSize)
      modifies this, serverBuffer
      ensures Valid() && toGame == old(toGame) && fromGame == old(fromGame) && toServer == old(toServer)
      ensures fromServer == old(fromServer) + (if input.Data? then input.bytes else "")
      ensures serverHup <==> (input.EndOfFile? || old(serverHup))
    {
      match input {
        case EndOfFile => serverHup := true;
        case Data(bytes) =>
          if bytes != "" {
            Append(bytes);
            game := game.(output := true);
            fromServer := fromServer + bytes;
          }
      }
    }

    /** `handleDataToGame`; `result` is what the socket makes of the buffer. */
    method HandleDataToGame(result: Output)
      requires Valid() && (result.Took? ==> result.count <= serverBufferSize)
      modifies this, serverBuffer
      ensures Valid() && fromServer == old(fromServer) && fromGame == old(fromGame) && toServer == old(toServer)
      ensures toGame == old(toGame + serverBuffer[..if result.Took? then result.count else 0])
      ensures gameHup <==> (result.PeerClosed? || old(gameHup))
    {
      match result {
        case PeerClosed => gameHup := true;
        case Took(n) =>
          if n > 0 {
            ghost var content := serverBuffer[..serverBufferSize];
            toGame := toGame + serverBuffer[..n];
            serverBufferSize := serverBufferSize - n;
            if serverBufferSize == 0 {
              game := Events(true, false);
            } else {
              MoveDown(serverBuffer, n, serverBufferSize);
            }
            assert serverBuffer[..serverBufferSize] == content[n..];
            assert content == content[..n] + content[n..];
          }
      }
    }

    /** `handleDataFromGame`. */
    method HandleDataFromGame(input: Input)
      requires Valid() && (input.Data? ==> |input.bytes| <= BUFF_SIZE - gameBufferSize)
      modifies this, gameBuffer
      ensures Valid() && toGame == old(toGame) && fromServer == old(fromServer) && toServer == old(toServer)
      ensures fromGame == old(fromGame) + (if input.Data? then input.bytes else "")
      ensures gameHup <==> (input.EndOfFile? || old(gameHup))
    {
      match input {
        case EndOfFile => gameHup := true;
        case Data(bytes) =>
          if bytes != "" {
            AppendToGame(bytes);
            server := server.(output := true);
            fromGame := fromGame + bytes;
          }
      }
    }

    /** `handleDataToServer`; a piece that mentions QUIT silences the notice of a later disconnection. */
    method HandleDataToServer(result: Output)
      requires Valid() && (result.Took? ==> result.count <= gameBufferSize)
      modifies this, gameBuffer
      ensures Valid() && fromServer == old(fromServer) && fromGame == old(fromGame) && toGame == old(toGame)
      ensures toServer == old(toServer + gameBuffer[..if result.Took? then result.count else 0])
      ensures serverHup <==> (result.PeerClosed? || old(serverHup))
      ensures preStop <==>
                old(preStop) || (result.Took? && Contains(old(gameBuffer[..if result.Took? then result.count else 0]), PRE_DISCONNECT_MSG))
    {
      match result {
        case PeerClosed => serverHup := true;
        case Took(n) =>
          var piece := gameBuffer[..n];
          if n > 0 {
            ShiftGameBuffer(n);
            toServer := toServer + piece;
            if gameBufferSize == 0 {
              server := Events(true, false);
            }
            var quit := Finds(piece, PRE_DISCONNECT_MSG);
            if quit {
              preStop := true;
            }
          }
      }
    }

    /** The first `n` characters leave the buffer. */
    method ShiftGameBuffer(n: nat)
      requires Fits() && n <= gameBufferSize
      modifies this`gameBufferSize, gameBuffer
      ensures Fits() && gameBufferSize == old(gameBufferSize) - n
      ensures old(gameBuffer[..gameBufferSize]) == old(gameBuffer[..n]) + gameBuffer[..gameBufferSize]
    {
      gameBufferSize := gameBufferSize - n;
      if gameBufferSize != 0 {
        MoveDown(gameBuffer, n, gameBufferSize);
      }
    }

    static lemma StepOn(text: string, i: nat, n: nat)
      requires i + n <= |text|
      ensures text[i..][..n] == text[i..i + n]
      ensures i < |text| ==> text[i..][1..] == text[i + 1..]
    {
    }

    static method Finds(text: string, word: string) returns (found: bool)
      ensures found <==> Contains(text, word)
    {
      var i := 0;
      while i + |word| <= |text|
        invariant i <= |text| && Contains(text, word) == Contains(text[i..], word)
        decreases |text| - i
      {
        StepOn(text, i, |word|);
        if text[i..i + |word|] == word { return true; }
        if i == |text| { return false; }
        i := i + 1;
      }
      return false;
    }

    /** `handleServerError` on a hang-up without a QUIT: the notice goes to the end of the buffer, which is
        cut short first if the notice does not fit. */
    method HandleServerError()
      requires Fits() && serverHup && !preStop
      modifies this`server, this`game, this`serverBufferSize, serverBuffer
      ensures Fits() && game.output && server == Events(false, false)
      ensures serverBuffer[..serverBufferSize] == WithNotice(old(serverBuffer[..serverBufferSize]))
    {
      server := Events(false, false);
      ghost var content := serverBuffer[..serverBufferSize];
      MakeRoom();
      Append(ERR_SERVER_DISC);
      Append([COMMAND_TERM]);
      assert serverBuffer[..serverBufferSize] == WithNotice(content);
      game := game.(output := true);
    }

    /** A buffer too full for the notice loses its end, and what is left is closed with a line feed. */
    method MakeRoom()
      requires Fits()
      modifies this`serverBufferSize, serverBuffer
      ensures serverBufferSize + |ERR_SERVER_DISC| + 1 <= BUFF_SIZE
      ensures serverBuffer[..serverBufferSize] == Kept(old(serverBuffer[..serverBufferSize]))
    {
      if serverBufferSize + |ERR_SERVER_DISC| + 1 > BUFF_SIZE {
        serverBufferSize := BUFF_SIZE - |ERR_SERVER_DISC| - 2;
        serverBuffer[serverBufferSize] := COMMAND_TERM;
        serverBufferSize := serverBufferSize + 1;
      }
    }

    method Append(text: string)
      requires Fits() && serverBufferSize + |text| <= BUFF_SIZE
      modifies this`serverBufferSize, serverBuffer
      ensures Fits() && serverBufferSize == old(serverBufferSize) + |text|
      ensures serverBuffer[..serverBufferSize] == old(serverBuffer[..serverBufferSize]) + text
    {
      CopyIn(serverBuffer, serverBufferSize, text);
      serverBufferSize := serverBufferSize + |text|;
    }

    method AppendToGame(text: string)
      requires Fits() && gameBufferSize + |text| <= BUFF_SIZE
      modifies this`gameBufferSize, gameBuffer
      ensures Fits() && gameBufferSize == old(gameBufferSize) + |text|
      ensures gameBuffer[..gameBufferSize] == old(gameBuffer[..gameBufferSize]) + text
    {
      CopyIn(gameBuffer, gameBufferSize, text);
      gameBufferSize := gameBufferSize + |text|;
    }
  }

  /** What stays of a buffer's content when the notice comes. */
  function Kept(content: string): string {
    if |content| + |ERR_SERVER_DISC| + 1 <= BUFF_SIZE then content
    else content[..BUFF_SIZE - |ERR_SERVER_DISC| - 2] + [COMMAND_TERM]
  }

  function WithNotice(content: string): string {
    Kept(content) + ERR_SERVER_DISC + [COMMAND_TERM]
  }

  /** Up to 998 buffered characters are kept; of more, the first 997, closed with a line feed. */
  lemma NoticeMeans(content: string)
    ensures WithNotice(content) ==
              (if |content| <= 998 then content else content[..997] + "\n") + "ERR 900 CONNECTION_FAILED" + "\n"
  {
  }

  /** The notice always fits; where the content is cut, the buffer ends up full to the last character. */
  lemma NoticeFits(content: string)
    requires |content| <= BUFF_SIZE
    ensures |WithNotice(content)| <= BUFF_SIZE
    ensures |content| + |ERR_SERVER_DISC| + 1 > BUFF_SIZE ==> |WithNotice(content)| == BUFF_SIZE
    ensures Kept(content) == content || (Kept(content) != "" && Kept(content)[|Kept(content)| - 1] == COMMAND_TERM)
  {
  }
}
