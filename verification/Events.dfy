/** Events on their way from the server's handlers to the client's event parser. */
module Events {
  import opened Tokens
  import opened WorldModel
  import opened Common
  import opened Json
  import opened JsonGrammar
  import opened JsonSound
  import opened CharacterText
  import opened CharacterStore
  import opened SavedFiles
  import opened Words

  const EVENTS := [
    "ROOM PRESENCE_ENTER", "ROOM PRESENCE_LEAVE", "ROOM CHAT", "GROUP CHAT", "GLOBAL CHAT", "GROUP JOIN", "GROUP LEAVE",
    "GROUP INVITE", "STATS", "ROOM COMBAT", "ROOM COMBAT_DEATH_NPC", "ROOM COMBAT_DEATH_PLAYER", "ROOM ITEM_USE",
    "ROOM QUEST_COMPLETE"]

  const STATS_PREFIX := "players="

  // ---- the client's event parser -------------------------------------------------------------

  datatype Word = NoWord | Word(text: string, next: nat)

  function WordFrom(s: string, pos: nat): (w: Word)
    requires pos <= |s|
    ensures w.Word? ==> w.next <= |s|
  {
    var a := SkipWs(s, pos);
    if a == |s| then NoWord else Word(s[a..WordEnd(s, a)], WordEnd(s, a))
  }

  /** A message the parser rejects, or the kind of event with its data. */
  datatype Parsed = Rejected | Event(kind: string, data: Json)

  /** Data that looks like no object, array or number is taken as a plain string. */
  function AsJsonText(data: string): string
    requires data != ""
  {
    if data[0] == '{' || data[0] == '[' || IsDigit(data[0]) then data else Quote(data)
  }

  function Stored(kind: string, data: string): Parsed {
    if data == "" then Rejected
    else match ParseJson(AsJsonText(data))
      case Ok(v) => Event(kind, v)
      case Fail(_) => Rejected
  }

  function CountOf(word: string): string {
    if |STATS_PREFIX| <= |word| && word[..|STATS_PREFIX|] == STATS_PREFIX then word[|STATS_PREFIX|..] else word
  }

  function ParseEvent(s: string): Parsed {
    var evt := WordFrom(s, 0);
    if evt.NoWord? then Rejected
    else
      var visibility := WordFrom(s, evt.next);
      if visibility.NoWord? then Rejected
      else
        var kind := WordFrom(s, visibility.next);
        if kind.NoWord? then Rejected
        else if visibility.text == "STATS" then Stored("STATS", CountOf(kind.text))
        else if visibility.text + " " + kind.text !in EVENTS then Rejected
        else Stored(visibility.text + " " + kind.text, RestFrom(s, kind.next))
  }

  class Message {
    var kind: string
    var data: Json

    constructor ()
    {
      kind, data := "", Null;
    }

    /** `parseEvent` with `storeJson`; it returns false where the source throws. */
    method Parse(event: string) returns (ok: bool)
      modifies this
      ensures ok <==> ParseEvent(event).Event?
      ensures ok ==> ParseEvent(event) == Event(kind, data)
    {
      hide WordEnd, SkipWs, EVENTS, ParseJson, RestFrom;
      var iss := new Stream(event);
      var found, evt := iss.NextWord();
      if !found { return false; }
      var visibility, word, rest: string;
      found, visibility := iss.NextWord();
      if !found { return false; }
      found, word := iss.NextWord();
      if !found { return false; }
      if visibility == "STATS" {
        kind := "STATS";
        rest := CountOf(word);
      } else {
        if visibility + " " + word !in EVENTS { return false; }
        kind := visibility + " " + word;
        rest := iss.RestOfLine();
      }
      if rest == "" { return false; }
      ok := Store(AsJsonText(rest));
    }

    method Store(text: string) returns (ok: bool)
      modifies this`data
      ensures ok <==> ParseJson(text).Ok?
      ensures ok ==> ParseJson(text) == Ok(data)
    {
      var parser := new Parser(text);
      var r := parser.Parse();
      if r.Fail? { return false; }
      data := r.value;
      ok := true;
    }
  }

  // ---- an event with its words and its data --------------------------------------------------

  predicate OneLineText(s: string) {
    forall i :: 0 <= i < |s| ==> s[i] != '\n'
  }

  function EventText(visibility: string, kind: string, data: string): string {
    "EVT" + (" " + (visibility + (" " + (kind + (" " + data)))))
  }

  lemma {:induction false} LineEndIs(s: string, pos: nat)
    requires pos <= |s| && forall i :: pos <= i < |s| ==> s[i] != '\n'
    ensures LineEnd(s, pos) == |s|
    decreases |s| - pos
  {
    if pos < |s| {
      LineEndIs(s, pos + 1);
    }
  }

  lemma WordThenBlank(s: string, pos: nat, t: string, rest: string)
    requires IsToken(t) && Spells(s, pos, t + (" " + rest))
    ensures pos <= |s| && WordFrom(s, pos) == Word(t, pos + |t|)
    ensures pos + |t| < |s| && WordFrom(s, pos + |t|) == WordFrom(s, pos + |t| + 1)
    ensures Has(s, pos + |t|, ' ') && Spells(s, pos + |t| + 1, rest)
  {
    hide Spells, IsToken;
    SpellsParts(s, pos, t, " " + rest);
    SpellsParts(s, pos + |t|, " ", rest);
    SpellsChar(s, pos + |t|, ' ');
    WordAt(s, pos, t);
    OneBlank(s, pos + |t|);
  }

  /** The parser finds the words and the data of an event that was built from them. */
  lemma EventIsParsed(visibility: string, kind: string, data: string)
    requires IsToken(visibility) && IsToken(kind) && visibility != "STATS"
    requires data != "" && !IsSpace(data[0]) && OneLineText(data)
    ensures
      var name := visibility + " " + kind;
      ParseEvent(EventText(visibility, kind, data)) == if name in EVENTS then Stored(name, data) else Rejected
  {
    hide Spells, WordFrom, EVENTS, Stored, OneLineText, RestFrom;
    var s := EventText(visibility, kind, data);
    SpellsSlice(s, 0, |s|);
    assert s[0..|s|] == s;
    assert IsToken("EVT");
    WordThenBlank(s, 0, "EVT", visibility + (" " + (kind + (" " + data))));
    WordThenBlank(s, 4, visibility, kind + (" " + data));
    WordThenBlank(s, 4 + |visibility| + 1, kind, data);
    RestIsData(s, 4 + |visibility| + 1 + |kind|, data);
  }

  lemma RestIsData(s: string, pos: nat, data: string)
    requires Has(s, pos, ' ') && Spells(s, pos + 1, data) && pos + 1 + |data| == |s|
    requires data != "" && !IsSpace(data[0]) && OneLineText(data)
    ensures RestFrom(s, pos) == data
  {
    SpellsRun(s, pos + 1, data);
    OneBlank(s, pos);
    forall i | pos + 1 <= i < |s| ensures s[i] != '\n' {
      assert s[i] == data[i - (pos + 1)];
    }
    LineEndIs(s, pos + 1);
  }

  // ---- chat ----------------------------------------------------------------------------------

  predicate IsScope(scope: string) {
    scope == "GLOBAL" || scope == "ROOM" || scope == "GROUP"
  }

  function ChatData(player: string, text: string): string {
    "{" + (EntryText("player", Quote(player)) + ("," + EntryText("text", Quote(Escape(text)))) + "}")
  }

  /** The part of `cmd_chat` that builds the event: the words behind the scope become the text. */
  method BuildChat(player: string, args: seq<string>) returns (ok: bool, event: string)
    ensures ok <==> |args| >= 2 && IsScope(args[0])
    ensures ok ==> event == EventText(args[0], "CHAT", ChatData(player, JoinFrom(args, 1)))
  {
    if |args| < 2 { return false, ""; }
    var scope := args[0];
    if scope != "GLOBAL" && scope != "ROOM" && scope != "GROUP" { return false, ""; }
    var text := JoinTokens(args, 1);
    var escaped := JsonEscape(text);
    event := "EVT" + (" " + (scope + (" " + ("CHAT" + (" " +
      ("{" + (EntryText("player", Quote(player)) + ("," + EntryText("text", Quote(escaped))) + "}")))))));
    ok := true;
  }

  function ChatEntries(player: string, text: string): seq<(string, Tree)> {
    [("player", RawTree(player)), ("text", StringTree(EscapedPieces(text)))]
  }

  lemma ChatDataIsTree(player: string, text: string)
    ensures ChatData(player, text) == Text(RecordTree(ChatEntries(player, text)))
  {
    hide Text, EntryText, RawTree, EscapedPieces, Quote, Escape;
    var entries := ChatEntries(player, text);
    RawIsQuoted(player);
    EscapedText(text);
    RecordTreeText(entries);
    var texts := EntryTexts(entries);
    assert texts == [EntryText("player", Quote(player)), EntryText("text", Quote(Escape(text)))];
    assert Joined(texts[1..]) == texts[1];
  }

  lemma EscapedText(s: string)
    ensures Text(StringTree(EscapedPieces(s))) == Quote(Escape(s))
  {
    EscapedPiecesText(s);
  }

  lemma ValidNamesAreClean(name: string)
    requires IsValidName(name)
    ensures Clean(name) && IsToken(name) && OneLineText(name)
  {
  }

  lemma {:induction false} EscapedIsOneLine(s: string)
    ensures OneLineText(Escape(s))
  {
    if s != "" {
      EscapedIsOneLine(s[1..]);
    }
  }

  lemma ChatDataIsOneLine(player: string, text: string)
    requires IsValidName(player)
    ensures OneLineText(ChatData(player, text))
  {
    hide Escape;
    EscapedIsOneLine(text);
    ValidNamesAreClean(player);
    var a, b := EntryText("player", Quote(player)), EntryText("text", Quote(Escape(text)));
    EntryIsOneLine("player", player);
    EntryIsOneLine("text", Escape(text));
  }

  lemma EntryIsOneLine(key: string, s: string)
    requires OneLineText(key) && OneLineText(s)
    ensures OneLineText(EntryText(key, Quote(s)))
  {
  }

  /** The record of a chat event reads back as its player and its text. */
  lemma ChatDataReads(player: string, text: string)
    requires Clean(player)
    ensures
      match ParseJson(ChatData(player, text))
      case Ok(v) => Field(v, "player") == String(player) && Field(v, "text") == String(text)
      case Fail(_) => false
  {
    hide Good, Value, Text, EscapedPieces, RawTree, RecordTree, ParseJson, ChatData, Clean;
    var entries := ChatEntries(player, text);
    var tree := RecordTree(entries);
    ChatDataIsTree(player, text);
    assert Clean("player") && Clean("text") by { ChatKeysAreClean(); }
    RawReads(player);
    EscapedReads(text);
    assert "player"[0] != "text"[0];
    RecordReads(entries);
    assert Text(tree) == "" + (Text(tree) + "");
    ReadsIsParsed(Text(tree), "", tree, "");
    assert Field(Value(tree), entries[0].0) == String(player) && Field(Value(tree), entries[1].0) == String(text);
  }

  lemma ChatKeysAreClean()
    ensures Clean("player") && Clean("text")
  {
  }

  /** Whatever the text, the client stores the player and the text that the server put into the event. */
  lemma ChatTextSurvives(scope: string, player: string, text: string)
    requires IsScope(scope) && IsValidName(player)
    ensures
      var p := ParseEvent(EventText(scope, "CHAT", ChatData(player, text)));
      p.Event? && p.kind == scope + " CHAT" && Field(p.data, "player") == String(player) && Field(p.data, "text") == String(text)
  {
    hide ParseEvent, EVENTS, ParseJson, EventText, OneLineText, IsValidName;
    assert IsToken(scope) && IsToken("CHAT") && scope != "STATS";
    assert ChatData(player, text) != "" && ChatData(player, text)[0] == '{';
    ChatDataIsOneLine(player, text);
    EventIsParsed(scope, "CHAT", ChatData(player, text));
    ScopesAreEvents(scope);
    ValidNamesAreClean(player);
    ChatDataReads(player, text);
  }

  lemma ScopesAreEvents(scope: string)
    requires IsScope(scope)
    ensures scope + " CHAT" in EVENTS && scope + " " + "CHAT" == scope + " CHAT"
  {
    assert EVENTS[2] == "ROOM CHAT" && EVENTS[3] == "GROUP CHAT" && EVENTS[4] == "GLOBAL CHAT";
    assert "ROOM" + " CHAT" == "ROOM CHAT" && "GROUP" + " CHAT" == "GROUP CHAT" && "GLOBAL" + " CHAT" == "GLOBAL CHAT";
  }

  /** From the words of a CHAT command to the words the client shows: nothing is lost. */
  lemma ChatWordsSurvive(args: seq<string>, player: string)
    requires |args| >= 2 && IsScope(args[0]) && IsValidName(player)
    requires forall i :: 0 <= i < |args| ==> IsToken(args[i])
    ensures
      var p := ParseEvent(EventText(args[0], "CHAT", ChatData(player, JoinFrom(args, 1))));
      p.Event? && Field(p.data, "text").String? && WordsOf(Field(p.data, "text").text) == args[1..]
  {
    hide ParseEvent, EventText, ChatData, IsScope, IsValidName, WordsOf, IsToken;
    ChatTextSurvives(args[0], player, JoinFrom(args, 1));
    JoinFromTail(args, 1);
    SplitOfJoin(args[1..]);
  }

  lemma {:induction false} JoinFromTail(tokens: seq<string>, start: nat)
    requires 1 <= start <= |tokens|
    ensures JoinFrom(tokens, start) == JoinFrom(tokens[1..], start - 1)
    decreases |tokens| - start
  {
    if start < |tokens| {
      JoinFromTail(tokens, start + 1);
    }
  }

  // ---- counts --------------------------------------------------------------------------------

  lemma {:induction false} DigitsAreToken(word: string, n: nat)
    requires IsToken(word)
    ensures IsToken(word + DigitsOf(n))
  {
  }

  lemma DigitsAreRead(n: nat)
    ensures Stored("STATS", DigitsOf(n)) == Event("STATS", Number(n as real))
  {
    hide ParseJson, Value, Text, DigitsOf, Good;
    var t := IntTree(n);
    IntTreeReads(n);
    IntTreeMeans(n);
    assert "" + (Text(t) + "") == DigitsOf(n);
    ReadsIsParsed(DigitsOf(n), "", t, "");
  }

  /** The number of players that the server announces is the number the client stores. */
  lemma StatsArrive(n: nat)
    ensures ParseEvent("EVT STATS players=" + DigitsOf(n)) == Event("STATS", Number(n as real))
  {
    hide Spells, WordFrom, EVENTS, Stored, DigitsOf, IsToken;
    var word := "players=" + DigitsOf(n);
    var s := "EVT" + (" " + ("STATS" + (" " + word)));
    assert "EVT STATS players=" + DigitsOf(n) == s;
    SpellsSlice(s, 0, |s|);
    assert s[0..|s|] == s;
    assert IsToken("EVT") && IsToken("STATS") && IsToken("players=") by { StatsTokens(); }
    WordThenBlank(s, 0, "EVT", "STATS" + (" " + word));
    WordThenBlank(s, 4, "STATS", word);
    DigitsAreToken("players=", n);
    LastWord(s, 10, word);
    assert CountOf(word) == DigitsOf(n);
    DigitsAreRead(n);
  }

  lemma StatsTokens()
    ensures IsToken("EVT") && IsToken("STATS") && IsToken("players=")
  {
  }

  lemma LastWord(s: string, pos: nat, t: string)
    requires IsToken(t) && Spells(s, pos, t) && pos + |t| == |s|
    ensures WordFrom(s, pos) == Word(t, |s|)
  {
    hide Spells, IsToken;
    WordAt(s, pos, t);
  }

  // ---- plain names as data -------------------------------------------------------------------

  /** A player who enters a room is announced by name; the client gets exactly that name unless it starts
      with a digit, because data that starts with a digit is read as a number. */
  lemma PresenceNameSurvives(name: string)
    requires IsValidName(name)
    ensures ParseEvent(EventText("ROOM", "PRESENCE_ENTER", name)) == Event("ROOM PRESENCE_ENTER", String(name))
       <==> !IsDigit(name[0])
  {
    hide ParseEvent, EVENTS, EventText, OneLineText, ParseJson;
    ValidNamesAreClean(name);
    assert IsToken("ROOM") && IsToken("PRESENCE_ENTER") && |"ROOM"| != |"STATS"|;
    EventIsParsed("ROOM", "PRESENCE_ENTER", name);
    PresenceIsEvent();
    if IsDigit(name[0]) {
      DigitIsNoString(name);
    } else {
      RawIdSurvives(name);
    }
  }

  /** A player called 42 is announced as the number 42. */
  lemma NumberNameIsLost()
    ensures IsValidName("42") && ParseEvent(EventText("ROOM", "PRESENCE_ENTER", "42")) != Event("ROOM PRESENCE_ENTER", String("42"))
  {
    hide ParseEvent, EVENTS;
    PresenceNameSurvives("42");
  }

  lemma PresenceIsEvent()
    ensures "ROOM" + " " + "PRESENCE_ENTER" == "ROOM PRESENCE_ENTER" && "ROOM PRESENCE_ENTER" in EVENTS
  {
    assert EVENTS[0] == "ROOM PRESENCE_ENTER";
  }

  lemma DigitIsNoString(text: string)
    requires text != "" && IsDigit(text[0])
    ensures forall t :: ParseJson(text) != Ok(String(t))
  {
    hide NumberEnd, Strtod;
    assert SkipWs(text, 0) == 0;
  }
}
