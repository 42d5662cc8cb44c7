/** The text of a character file as a syntax tree: how lists of elements and members print, and what
    reading them back gives. */
module CharacterText {
  import opened Common
  import opened Json
  import opened JsonGrammar

  // ---- strings -------------------------------------------------------------------------------

  /** The pieces of an escaped string. */
  function EscapedPieces(s: string): seq<Piece> {
    seq(|s|, i requires 0 <= i < |s| =>
      if s[i] == '\n' then Escaped('n') else if s[i] == '"' || s[i] == '\\' then Escaped(s[i]) else Raw(s[i]))
  }

  /** The pieces of a string that is written as it is. */
  function RawPieces(s: string): seq<Piece> {
    seq(|s|, i requires 0 <= i < |s| => Raw(s[i]))
  }

  /** Ids are written without escaping, so they must not need any. */
  predicate Clean(id: string) {
    forall i :: 0 <= i < |id| ==> id[i] != '"' && id[i] != '\\'
  }

  lemma {:induction false} EscapedPiecesText(s: string)
    ensures PiecesText(EscapedPieces(s)) == Escape(s)
    ensures PiecesValue(EscapedPieces(s)) == s
    ensures GoodPieces(EscapedPieces(s))
  {
    if s != "" {
      EscapedPiecesText(s[1..]);
      assert EscapedPieces(s)[1..] == EscapedPieces(s[1..]);
      assert s == [s[0]] + s[1..];
    }
  }

  lemma {:induction false} RawPiecesText(s: string)
    ensures PiecesText(RawPieces(s)) == s
    ensures PiecesValue(RawPieces(s)) == s
    ensures Clean(s) ==> GoodPieces(RawPieces(s))
  {
    if s != "" {
      RawPiecesText(s[1..]);
      assert RawPieces(s)[1..] == RawPieces(s[1..]);
      assert s == [s[0]] + s[1..];
    }
  }

  function RawTree(s: string): Tree {
    StringTree(RawPieces(s))
  }

  // ---- numbers -------------------------------------------------------------------------------

  function DigitsOf(n: nat): (s: string)
    ensures s != "" && Digits(s)
  {
    var last := [('0' as int + n % 10) as char];
    if n < 10 then last else DigitsOf(n / 10) + last
  }

  /** A number as an output stream prints it. */
  function IntText(n: int): string {
    if n < 0 then "-" + DigitsOf(-n) else DigitsOf(n)
  }

  function IntTree(n: int): Tree {
    NumberTree(Numeral(n < 0, DigitsOf(if n < 0 then -n else n), false, "", NoExponent))
  }

  lemma {:induction false} DigitsOfNatural(n: nat)
    ensures Natural(DigitsOf(n)) == n
  {
    var ds := DigitsOf(n);
    if n < 10 {
      assert ds[..0] == "";
    } else {
      DigitsOfNatural(n / 10);
      assert ds[..|ds| - 1] == DigitsOf(n / 10);
    }
  }

  lemma IntTreeReads(n: int)
    ensures Good(IntTree(n)) && Text(IntTree(n)) == IntText(n) && AsInt(Value(IntTree(n))) == n
  {
    var m := if n < 0 then -n else n;
    var ds := DigitsOf(m);
    DigitsOfNatural(m);
    assert Natural("") == 0;
    assert ds + ("" + "") == ds;
    assert Decimal(n < 0, ds, "", 0) == if n < 0 then -(m as real) else m as real;
    WholeTruncates(m);
  }

  lemma WholeTruncates(m: nat)
    ensures Truncate(m as real) == m && Truncate(-(m as real)) == 0 - m
  {
  }

  // ---- lists ---------------------------------------------------------------------------------

  /** The parts with commas between them. */
  function Joined(parts: seq<string>): string {
    if parts == [] then "" else if |parts| == 1 then parts[0] else parts[0] + ("," + Joined(parts[1..]))
  }

  lemma {:induction false} JoinedSnoc(parts: seq<string>, part: string)
    ensures Joined(parts + [part]) == if parts == [] then part else Joined(parts) + ("," + part)
  {
    if parts != [] {
      assert (parts + [part])[1..] == parts[1..] + [part];
      JoinedSnoc(parts[1..], part);
    }
  }

  function ElementsOf(trees: seq<Tree>): Elements
    requires trees != []
    decreases |trees|
  {
    var e := Element("", trees[0], "");
    if |trees| == 1 then LastElement(e) else MoreElements(e, ElementsOf(trees[1..]))
  }

  function ListTree(trees: seq<Tree>): Tree {
    if trees == [] then EmptyArray("") else ArrayTree(ElementsOf(trees))
  }

  function Texts(trees: seq<Tree>): seq<string> {
    seq(|trees|, i requires 0 <= i < |trees| => Text(trees[i]))
  }

  lemma {:induction false} ElementsOfText(trees: seq<Tree>)
    requires trees != []
    ensures ElementsText(ElementsOf(trees)) == Joined(Texts(trees))
    decreases |trees|
  {
    hide Text;
    assert Text(trees[0]) + "" == Text(trees[0]);
    if |trees| > 1 {
      ElementsOfText(trees[1..]);
      assert Texts(trees)[1..] == Texts(trees[1..]);
    }
  }

  lemma {:induction false} ElementsOfValues(trees: seq<Tree>)
    requires trees != []
    ensures Values(ElementsOf(trees)) == seq(|trees|, i requires 0 <= i < |trees| => Value(trees[i]))
    ensures (forall i :: 0 <= i < |trees| ==> Good(trees[i])) ==> GoodElements(ElementsOf(trees))
    decreases |trees|
  {
    hide Value, Good;
    if |trees| > 1 {
      ElementsOfValues(trees[1..]);
    }
  }

  lemma ListTreeText(trees: seq<Tree>)
    ensures Text(ListTree(trees)) == "[" + (Joined(Texts(trees)) + "]")
  {
    if trees != [] { ElementsOfText(trees); }
  }

  lemma ListTreeValue(trees: seq<Tree>)
    ensures Value(ListTree(trees)) == Array(seq(|trees|, i requires 0 <= i < |trees| => Value(trees[i])))
    ensures (forall i :: 0 <= i < |trees| ==> Good(trees[i])) ==> Good(ListTree(trees))
  {
    if trees != [] { ElementsOfValues(trees); }
  }

  // ---- objects -------------------------------------------------------------------------------

  function Entry(key: string, value: Tree): Member {
    Member("", RawPieces(key), "", "", value, "")
  }

  function MembersOf(entries: seq<(string, Tree)>): Members
    requires entries != []
    decreases |entries|
  {
    var m := Entry(entries[0].0, entries[0].1);
    if |entries| == 1 then LastMember(m) else MoreMembers(m, MembersOf(entries[1..]))
  }

  function RecordTree(entries: seq<(string, Tree)>): Tree {
    if entries == [] then EmptyObject("") else ObjectTree(MembersOf(entries))
  }

  function Quote(s: string): string {
    "\"" + (s + "\"")
  }

  function EntryText(key: string, value: string): string {
    Quote(key) + (":" + value)
  }

  function EntryTexts(entries: seq<(string, Tree)>): seq<string> {
    seq(|entries|, i requires 0 <= i < |entries| => EntryText(entries[i].0, Text(entries[i].1)))
  }

  lemma EntryIsText(key: string, value: Tree)
    ensures MemberText(Entry(key, value)) == EntryText(key, Text(value))
    ensures Clean(key) && Good(value) ==> GoodMember(Entry(key, value))
    ensures PiecesValue(Entry(key, value).key) == key
  {
    hide Text, Good, PiecesText, PiecesValue, GoodPieces;
    RawPiecesText(key);
    assert Text(value) + "" == Text(value);
  }

  lemma {:induction false} MembersOfText(entries: seq<(string, Tree)>)
    requires entries != []
    ensures MembersText(MembersOf(entries)) == Joined(EntryTexts(entries))
    decreases |entries|
  {
    hide Text, MemberText, EntryText, Entry;
    EntryIsText(entries[0].0, entries[0].1);
    if |entries| > 1 {
      MembersOfText(entries[1..]);
      assert EntryTexts(entries)[1..] == EntryTexts(entries[1..]);
    }
  }

  lemma RecordTreeText(entries: seq<(string, Tree)>)
    ensures Text(RecordTree(entries)) == "{" + (Joined(EntryTexts(entries)) + "}")
  {
    if entries != [] { MembersOfText(entries); }
  }

  predicate GoodEntries(entries: seq<(string, Tree)>) {
    forall i :: 0 <= i < |entries| ==> Clean(entries[i].0) && Good(entries[i].1)
  }

  predicate DistinctKeys(entries: seq<(string, Tree)>) {
    forall i, j :: 0 <= i < j < |entries| ==> entries[i].0 != entries[j].0
  }

  predicate HasKey(entries: seq<(string, Tree)>, k: string) {
    exists i {:trigger entries[i]} :: 0 <= i < |entries| && entries[i].0 == k
  }

  lemma KeysOfRest(entries: seq<(string, Tree)>, k: string)
    requires entries != []
    ensures HasKey(entries, k) <==> entries[0].0 == k || HasKey(entries[1..], k)
  {
    var rest := entries[1..];
    assert forall i :: 0 <= i < |rest| ==> rest[i] == entries[i + 1];
    assert forall i :: 0 < i < |entries| ==> entries[i] == rest[i - 1];
  }

  /** Entering members with distinct keys: each key gets its own value, the others keep theirs. */
  lemma {:induction false} EnteredLookup(acc: map<string, Json>, entries: seq<(string, Tree)>)
    requires entries != [] && DistinctKeys(entries)
    ensures
      var m := Entered(acc, MembersOf(entries));
      && (forall i {:trigger entries[i]} :: 0 <= i < |entries| ==> entries[i].0 in m && m[entries[i].0] == Value(entries[i].1))
      && (forall k {:trigger k in m} :: !HasKey(entries, k) ==> (k in m <==> k in acc) && (k in acc ==> m[k] == acc[k]))
    decreases |entries|
  {
    hide Value, PiecesValue, RawPieces, Text, Clean, Good;
    EntryIsText(entries[0].0, entries[0].1);
    if |entries| > 1 {
      var rest := entries[1..];
      var acc' := acc[entries[0].0 := Value(entries[0].1)];
      EnteredLookup(acc', rest);
      var m := Entered(acc', MembersOf(rest));
      assert forall i :: 0 <= i < |rest| ==> rest[i] == entries[i + 1];
      forall i | 0 <= i < |entries| ensures entries[i].0 in m && m[entries[i].0] == Value(entries[i].1) {
        if i > 0 { assert entries[i] == rest[i - 1]; }
      }
      forall k | !HasKey(entries, k) ensures (k in m <==> k in acc) && (k in acc ==> m[k] == acc[k]) {
        KeysOfRest(entries, k);
      }
    }
  }

  lemma {:induction false} MembersOfGood(entries: seq<(string, Tree)>)
    requires entries != [] && GoodEntries(entries)
    ensures GoodMembers(MembersOf(entries))
    decreases |entries|
  {
    hide Good, Entry, Clean, GoodMember;
    EntryIsText(entries[0].0, entries[0].1);
    if |entries| > 1 {
      MembersOfGood(entries[1..]);
    }
  }

  /** What a record with distinct keys reads back as. */
  lemma RecordReads(entries: seq<(string, Tree)>)
    requires DistinctKeys(entries) && GoodEntries(entries)
    ensures Good(RecordTree(entries)) && Value(RecordTree(entries)).Object?
    ensures forall i {:trigger entries[i]} :: 0 <= i < |entries| ==>
              Field(Value(RecordTree(entries)), entries[i].0) == Value(entries[i].1)
    ensures forall k {:trigger k in Fields(Value(RecordTree(entries)))} :: k in Fields(Value(RecordTree(entries))) <==> HasKey(entries, k)
  {
    hide GoodEntries, Clean;
    if entries != [] {
      MembersOfGood(entries);
      var none: map<string, Json> := map[];
      EnteredLookup(none, entries);
      var m := Entered(none, MembersOf(entries));
      assert Value(RecordTree(entries)) == Object(m);
      forall k ensures k in m <==> HasKey(entries, k) {
        assert k !in none;
      }
    }
  }
}
