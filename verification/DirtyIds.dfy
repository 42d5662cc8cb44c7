/** Which character states survive their file: an id that needs escaping is lost, because its file has too
    few backslashes for reading the id back. */
module DirtyIds {
  import opened Lists
  import opened Tokens
  import opened WorldModel
  import opened Json
  import opened JsonGrammar
  import opened JsonSound
  import opened CharacterText
  import opened CharacterStore

  // ---- counting ------------------------------------------------------------------------------

  /** The backslashes of a text. */
  function Slashes(s: string): nat {
    if s == "" then 0 else (if s[0] == '\\' then 1 else 0) + Slashes(s[1..])
  }

  /** The backslashes it takes to write a string so that it reads back: one per quote, two per backslash. */
  function Needed(s: string): nat {
    if s == "" then 0 else (if s[0] == '"' then 1 else if s[0] == '\\' then 2 else 0) + Needed(s[1..])
  }

  lemma {:induction false} SlashesOfSum(a: string, b: string)
    ensures Slashes(a + b) == Slashes(a) + Slashes(b)
  {
    if a == "" {
      assert a + b == b;
    } else {
      assert (a + b)[1..] == a[1..] + b;
      SlashesOfSum(a[1..], b);
    }
  }

  lemma {:induction false} NeededOrClean(s: string)
    ensures Needed(s) >= Slashes(s)
    ensures Needed(s) == Slashes(s) <==> Clean(s)
  {
    if s != "" {
      NeededOrClean(s[1..]);
      assert s == [s[0]] + s[1..];
    }
  }

  lemma SlashesOfOne(c: char)
    ensures Slashes([c]) == if c == '\\' then 1 else 0
  {
  }

  lemma {:induction false} CleanHasNoSlashes(s: string)
    requires Clean(s)
    ensures Slashes(s) == 0
  {
    if s != "" { CleanHasNoSlashes(s[1..]); }
  }

  // ---- what a tree's text pays for -----------------------------------------------------------

  lemma {:induction false} PiecesPay(ps: seq<Piece>)
    requires GoodPieces(ps)
    ensures Slashes(PiecesText(ps)) >= Needed(PiecesValue(ps))
  {
    if ps != [] {
      var head := if ps[0].Raw? then [ps[0].c] else ['\\', ps[0].c];
      PiecesPay(ps[1..]);
      SlashesOfSum(head, PiecesText(ps[1..]));
      assert ([PieceValue(ps[0])] + PiecesValue(ps[1..]))[1..] == PiecesValue(ps[1..]);
      if ps[0].Escaped? {
        SlashesOfSum(['\\'], [ps[0].c]);
        assert head == ['\\'] + [ps[0].c];
      }
      SlashesOfOne(ps[0].c);
      SlashesOfOne('\\');
    }
  }

  lemma QuotedPays(ps: seq<Piece>)
    requires GoodPieces(ps)
    ensures Slashes(Quoted(ps)) >= Needed(PiecesValue(ps))
  {
    hide Needed, PiecesText, PiecesValue;
    PiecesPay(ps);
    SlashesOfSum("\"", PiecesText(ps) + "\"");
    SlashesOfSum(PiecesText(ps), "\"");
    SlashesOfOne('"');
  }

  lemma StringPays(t: Tree)
    requires Good(t)
    ensures Slashes(Text(t)) >= Needed(AsString(Value(t)))
  {
    hide Slashes, Quoted, PiecesValue;
    if t.StringTree? { QuotedPays(t.pieces); } else { assert Needed("") == 0; }
  }

  /** What the strings of a list take. */
  function NeededAll(strings: seq<string>): nat {
    if strings == [] then 0 else Needed(strings[0]) + NeededAll(strings[1..])
  }

  lemma ElementPays(e: Element)
    requires Good(e.value)
    ensures Slashes(ElementText(e)) >= Slashes(Text(e.value))
  {
    hide Slashes, Text;
    SlashesOfSum(e.before, Text(e.value) + e.after);
    SlashesOfSum(Text(e.value), e.after);
  }

  lemma {:induction false} ElementsPay(es: Elements)
    requires GoodElements(es)
    ensures Slashes(ElementsText(es)) >= NeededAll(TextsOf(Values(es)))
    decreases es
  {
    hide Slashes, Needed, Text, Value, Good, ElementText;
    var e := es.element;
    assert Good(e.value);
    ElementPays(e);
    StringPays(e.value);
    var first := AsString(Value(e.value));
    match es {
      case LastElement(_) =>
        assert TextsOf([Value(e.value)]) == [first];
        assert NeededAll([first]) == Needed(first) + NeededAll([first][1..]);
      case MoreElements(_, rest) =>
        ElementsPay(rest);
        SlashesOfSum(ElementText(e), "," + ElementsText(rest));
        SlashesOfSum(",", ElementsText(rest));
        assert TextsOf(Values(es)) == [first] + TextsOf(Values(rest));
        assert ([first] + TextsOf(Values(rest)))[1..] == TextsOf(Values(rest));
    }
  }

  lemma ListPays(t: Tree)
    requires Good(t)
    ensures Slashes(Text(t)) >= NeededAll(TextsOf(ItemsOf(Value(t))))
  {
    hide Slashes, Needed, ElementsText, Values, MembersText, Entered, NumeralText, Quoted, GoodElements;
    assert NeededAll(TextsOf([])) == 0;
    if t.ArrayTree? {
      ElementsPay(t.elements);
      SlashesOfSum("[", ElementsText(t.elements) + "]");
      SlashesOfSum(ElementsText(t.elements), "]");
    }
  }

  /** What one member of an object takes: its key, and its value where that is a string. */
  function NeededAt(fields: map<string, Json>, k: string): nat {
    if k in fields then Needed(k) + Needed(AsString(fields[k])) else 0
  }

  function NeededIn(fields: map<string, Json>, keys: seq<string>): nat {
    if keys == [] then 0 else NeededAt(fields, keys[0]) + NeededIn(fields, keys[1..])
  }

  /** Entering one member adds at most what that member takes. */
  lemma {:induction false} OneEntry(fields: map<string, Json>, keys: seq<string>, k: string, v: Json)
    requires NoDuplicates(keys)
    ensures NeededIn(fields[k := v], keys) <= NeededIn(fields, keys) + (if k in keys then Needed(k) + Needed(AsString(v)) else 0)
    decreases |keys|
  {
    hide Needed;
    if keys != [] {
      assert NoDuplicates(keys[1..]);
      OneEntry(fields, keys[1..], k, v);
      assert keys == [keys[0]] + keys[1..];
    }
  }

  lemma MemberPays(m: Member)
    requires GoodMember(m)
    ensures Slashes(MemberText(m)) >= Needed(PiecesValue(m.key)) + Slashes(Text(m.value))
  {
    hide Slashes, Needed, Text, Quoted, PiecesValue;
    QuotedPays(m.key);
    var tail := Text(m.value) + m.after;
    SlashesOfSum(m.before, Quoted(m.key) + (m.afterKey + (":" + (m.beforeValue + tail))));
    SlashesOfSum(Quoted(m.key), m.afterKey + (":" + (m.beforeValue + tail)));
    SlashesOfSum(m.afterKey, ":" + (m.beforeValue + tail));
    SlashesOfSum(":", m.beforeValue + tail);
    SlashesOfSum(m.beforeValue, tail);
    SlashesOfSum(Text(m.value), m.after);
  }

  lemma MembersSplit(ms: Members)
    requires ms.MoreMembers?
    ensures Slashes(MembersText(ms)) >= Slashes(MemberText(ms.member)) + Slashes(MembersText(ms.rest))
  {
    hide Slashes, MemberText;
    SlashesOfSum(MemberText(ms.member), "," + MembersText(ms.rest));
    SlashesOfSum(",", MembersText(ms.rest));
  }

  lemma {:induction false} MembersPay(acc: map<string, Json>, ms: Members, keys: seq<string>)
    requires GoodMembers(ms) && NoDuplicates(keys)
    ensures NeededIn(Entered(acc, ms), keys) <= NeededIn(acc, keys) + Slashes(MembersText(ms))
    decreases ms
  {
    hide Slashes, Needed, Text, Value, MemberText, NeededIn, NoDuplicates, PiecesValue, Good;
    var m := ms.member;
    MemberPays(m);
    StringPays(m.value) by { assert Good(m.value); }
    OneEntry(acc, keys, PiecesValue(m.key), Value(m.value));
    if ms.MoreMembers? {
      MembersSplit(ms);
      MembersPay(acc[PiecesValue(m.key) := Value(m.value)], ms.rest, keys);
    }
  }

  lemma {:induction false} NothingNeeded(keys: seq<string>)
    ensures NeededIn(map[], keys) == 0
  {
    if keys != [] { NothingNeeded(keys[1..]); }
  }

  lemma RecordPays(t: Tree, keys: seq<string>)
    requires Good(t) && NoDuplicates(keys)
    ensures Slashes(Text(t)) >= NeededIn(Fields(Value(t)), keys)
  {
    hide Slashes, NeededIn, Values, MembersText, Entered, ElementsText, NumeralText, Quoted, GoodMembers, NoDuplicates;
    NothingNeeded(keys);
    if t.ObjectTree? {
      MembersPay(map[], t.members, keys);
      SlashesOfSum("{", MembersText(t.members) + "}");
      SlashesOfSum(MembersText(t.members), "}");
    }
  }

  // ---- the record of a character -------------------------------------------------------------

  const ID_KEYS := ["current_room", "last_target", "inventory", "quest_status", "npc_dialogue_progress"]

  lemma IdKeysDiffer()
    ensures NoDuplicates(ID_KEYS)
    ensures forall i :: 0 <= i < |ID_KEYS| ==> ID_KEYS[i] != "name" && ID_KEYS[i] != "race" && ID_KEYS[i] != "special_attributes"
  {
    assert "current_room"[0] != "quest_status"[0];
    var lengths := [12, 11, 9, 12, 21];
    assert forall i :: 0 <= i < 5 ==> |ID_KEYS[i]| == lengths[i];
  }

  /** What the ids in one field of a character file take. */
  function NeededOf(k: string, j: Json, questOrder: seq<string>, progressOrder: seq<string>): nat {
    if k == "current_room" || k == "last_target" then Needed(AsString(j))
    else if k == "inventory" then NeededAll(TextsOf(ItemsOf(j)))
    else if k == "quest_status" then NeededIn(Fields(j), questOrder)
    else if k == "npc_dialogue_progress" then NeededIn(Fields(j), progressOrder)
    else 0
  }

  function NeededFor(
    fields: map<string, Json>, keys: seq<string>, questOrder: seq<string>, progressOrder: seq<string>): nat
  {
    if keys == [] then 0
    else NeededOf(keys[0], Field(Object(fields), keys[0]), questOrder, progressOrder)
         + NeededFor(fields, keys[1..], questOrder, progressOrder)
  }

  lemma TreePays(k: string, t: Tree, questOrder: seq<string>, progressOrder: seq<string>)
    requires Good(t) && NoDuplicates(questOrder) && NoDuplicates(progressOrder)
    ensures Slashes(Text(t)) >= NeededOf(k, Value(t), questOrder, progressOrder)
  {
    hide Slashes, Text, Value, Needed, NeededAll, NeededIn, Good;
    StringPays(t);
    ListPays(t);
    RecordPays(t, questOrder);
    RecordPays(t, progressOrder);
  }

  lemma {:induction false} OneField(
    fields: map<string, Json>, keys: seq<string>, k: string, v: Json, questOrder: seq<string>, progressOrder: seq<string>)
    requires NoDuplicates(keys)
    ensures NeededFor(fields[k := v], keys, questOrder, progressOrder)
         <= NeededFor(fields, keys, questOrder, progressOrder) + (if k in keys then NeededOf(k, v, questOrder, progressOrder) else 0)
    decreases |keys|
  {
    hide NeededOf;
    if keys != [] {
      assert NoDuplicates(keys[1..]);
      OneField(fields, keys[1..], k, v, questOrder, progressOrder);
      assert keys == [keys[0]] + keys[1..];
    }
  }

  lemma {:induction false} FieldsPay(
    acc: map<string, Json>, ms: Members, keys: seq<string>, questOrder: seq<string>, progressOrder: seq<string>)
    requires GoodMembers(ms) && NoDuplicates(keys) && NoDuplicates(questOrder) && NoDuplicates(progressOrder)
    ensures NeededFor(Entered(acc, ms), keys, questOrder, progressOrder)
         <= NeededFor(acc, keys, questOrder, progressOrder) + Slashes(MembersText(ms))
    decreases ms
  {
    hide Slashes, Needed, NeededOf, Text, Value, MemberText, NeededFor, NoDuplicates, PiecesValue, Good;
    var m := ms.member;
    assert Good(m.value);
    MemberPays(m);
    TreePays(PiecesValue(m.key), m.value, questOrder, progressOrder);
    OneField(acc, keys, PiecesValue(m.key), Value(m.value), questOrder, progressOrder);
    if ms.MoreMembers? {
      MembersSplit(ms);
      FieldsPay(acc[PiecesValue(m.key) := Value(m.value)], ms.rest, keys, questOrder, progressOrder);
    }
  }

  // ---- the ids of a state --------------------------------------------------------------------

  function QuestIds(quests: map<string, string>, order: seq<string>): seq<string> {
    if order == [] then []
    else [order[0], if order[0] in quests then quests[order[0]] else ""] + QuestIds(quests, order[1..])
  }

  /** Everything that is written into the file without escaping. */
  function Ids(p: PlayerState, questOrder: seq<string>, progressOrder: seq<string>): seq<string> {
    [p.room] + ([p.lastTarget] + (p.inventory + (QuestIds(p.quests, questOrder) + progressOrder)))
  }

  lemma {:induction false} NeededAllOfSum(a: seq<string>, b: seq<string>)
    ensures NeededAll(a + b) == NeededAll(a) + NeededAll(b)
  {
    if a == [] {
      assert a + b == b;
    } else {
      assert (a + b)[1..] == a[1..] + b;
      NeededAllOfSum(a[1..], b);
    }
  }

  function SlashesAll(strings: seq<string>): nat {
    if strings == [] then 0 else Slashes(strings[0]) + SlashesAll(strings[1..])
  }

  lemma {:induction false} SlashesAllOfSum(a: seq<string>, b: seq<string>)
    ensures SlashesAll(a + b) == SlashesAll(a) + SlashesAll(b)
  {
    hide Slashes;
    if a == [] {
      assert a + b == b;
    } else {
      assert (a + b)[1..] == a[1..] + b;
      SlashesAllOfSum(a[1..], b);
    }
  }

  /** Ids that take no more backslashes than they hold are clean. */
  lemma {:induction false} BalancedIsClean(strings: seq<string>)
    ensures NeededAll(strings) >= SlashesAll(strings)
    ensures NeededAll(strings) == SlashesAll(strings) ==> forall i :: i in strings ==> Clean(i)
  {
    hide Needed, Slashes, Clean;
    if strings != [] {
      NeededOrClean(strings[0]);
      BalancedIsClean(strings[1..]);
      assert strings == [strings[0]] + strings[1..];
    }
  }

  lemma {:induction false} QuestsNeed(fields: map<string, Json>, quests: map<string, string>, order: seq<string>)
    requires forall q :: q in order ==> q in quests
    requires quests == map q | q in fields :: AsString(fields[q])
    ensures NeededIn(fields, order) == NeededAll(QuestIds(quests, order))
    decreases |order|
  {
    hide Needed;
    if order != [] {
      QuestsNeed(fields, quests, order[1..]);
      var pair := [order[0], quests[order[0]]];
      NeededAllOfSum(pair, QuestIds(quests, order[1..]));
      assert NeededAll(pair) == Needed(order[0]) + Needed(quests[order[0]]) by {
        assert pair[1..] == [quests[order[0]]] && [quests[order[0]]][1..] == [];
      }
    }
  }

  lemma {:induction false} ProgressNeeds(fields: map<string, Json>, order: seq<string>)
    requires forall n :: n in order ==> n in fields
    ensures NeededIn(fields, order) >= NeededAll(order)
    decreases |order|
  {
    hide Needed;
    if order != [] {
      ProgressNeeds(fields, order[1..]);
    }
  }

  /** A record that is loaded as `p` takes at least what the ids of `p` take. */
  lemma LoadedNeeds(p: PlayerState, fields: map<string, Json>, questOrder: seq<string>, progressOrder: seq<string>)
    requires LoadedState(p.id, Object(fields)) == p
    requires IsOrderOf(questOrder, p.quests.Keys) && IsOrderOf(progressOrder, p.progress.Keys)
    ensures NeededFor(fields, ID_KEYS, questOrder, progressOrder) >= NeededAll(Ids(p, questOrder, progressOrder))
  {
    hide Needed, NeededAll, NeededIn, NoDuplicates;
    var root := Object(fields);
    FiveFields(fields, questOrder, progressOrder);
    QuestsNeed(Fields(Field(root, "quest_status")), p.quests, questOrder);
    ProgressNeeds(Fields(Field(root, "npc_dialogue_progress")), progressOrder);
    var quests := QuestIds(p.quests, questOrder);
    NeededAllOfSum([p.room], [p.lastTarget] + (p.inventory + (quests + progressOrder)));
    NeededAllOfSum([p.lastTarget], p.inventory + (quests + progressOrder));
    NeededAllOfSum(p.inventory, quests + progressOrder);
    NeededAllOfSum(quests, progressOrder);
    OneNeeds(p.room);
    OneNeeds(p.lastTarget);
  }

  lemma OneNeeds(s: string)
    ensures NeededAll([s]) == Needed(s)
  {
    assert [s][1..] == [];
  }

  lemma FiveFields(fields: map<string, Json>, questOrder: seq<string>, progressOrder: seq<string>)
    ensures
      var root := Object(fields);
      NeededFor(fields, ID_KEYS, questOrder, progressOrder)
        == Needed(AsString(Field(root, "current_room"))) + Needed(AsString(Field(root, "last_target")))
           + NeededAll(TextsOf(ItemsOf(Field(root, "inventory"))))
           + NeededIn(Fields(Field(root, "quest_status")), questOrder)
           + NeededIn(Fields(Field(root, "npc_dialogue_progress")), progressOrder)
  {
    hide Needed, NeededAll, NeededIn, NeededOf, NeededFor;
    NeededByKey(fields, questOrder, progressOrder);
    var last := ["npc_dialogue_progress"];
    var two := ["quest_status"] + last;
    var three := ["inventory"] + two;
    var four := ["last_target"] + three;
    assert ID_KEYS == ["current_room"] + four;
    OneKey(fields, "current_room", four, questOrder, progressOrder);
    OneKey(fields, "last_target", three, questOrder, progressOrder);
    OneKey(fields, "inventory", two, questOrder, progressOrder);
    OneKey(fields, "quest_status", last, questOrder, progressOrder);
    OneKey(fields, "npc_dialogue_progress", [], questOrder, progressOrder);
    assert ["npc_dialogue_progress"] + [] == last;
    NoKeys(fields, questOrder, progressOrder);
  }

  lemma OneKey(fields: map<string, Json>, k: string, rest: seq<string>, questOrder: seq<string>, progressOrder: seq<string>)
    ensures NeededFor(fields, [k] + rest, questOrder, progressOrder)
         == NeededOf(k, Field(Object(fields), k), questOrder, progressOrder) + NeededFor(fields, rest, questOrder, progressOrder)
  {
    hide NeededOf;
    assert ([k] + rest)[1..] == rest;
  }

  lemma NoKeys(fields: map<string, Json>, questOrder: seq<string>, progressOrder: seq<string>)
    ensures NeededFor(fields, [], questOrder, progressOrder) == 0
  {
  }

  lemma NeededByKey(fields: map<string, Json>, questOrder: seq<string>, progressOrder: seq<string>)
    ensures forall j :: NeededOf("current_room", j, questOrder, progressOrder) == Needed(AsString(j))
    ensures forall j :: NeededOf("last_target", j, questOrder, progressOrder) == Needed(AsString(j))
    ensures forall j :: NeededOf("inventory", j, questOrder, progressOrder) == NeededAll(TextsOf(ItemsOf(j)))
    ensures forall j :: NeededOf("quest_status", j, questOrder, progressOrder) == NeededIn(Fields(j), questOrder)
    ensures forall j :: NeededOf("npc_dialogue_progress", j, questOrder, progressOrder) == NeededIn(Fields(j), progressOrder)
  {
    hide Needed, NeededAll, NeededIn;
    IdKeysDiffer();
    assert ID_KEYS[0] != ID_KEYS[2] && ID_KEYS[1] != ID_KEYS[2];
    assert ID_KEYS[0] != ID_KEYS[3] && ID_KEYS[1] != ID_KEYS[3] && ID_KEYS[2] != ID_KEYS[3];
    assert ID_KEYS[0] != ID_KEYS[4] && ID_KEYS[1] != ID_KEYS[4] && ID_KEYS[2] != ID_KEYS[4] && ID_KEYS[3] != ID_KEYS[4];
  }

  // ---- the text behind the escaped fields ----------------------------------------------------

  lemma {:induction false} SlashesOfJoined(parts: seq<string>)
    ensures Slashes(Joined(parts)) == SlashesAll(parts)
    decreases |parts|
  {
    hide Slashes;
    if |parts| == 1 {
      assert parts[1..] == [];
      assert SlashesAll(parts[1..]) == 0;
    } else if |parts| > 1 {
      SlashesOfJoined(parts[1..]);
      SlashesOfSum(parts[0], "," + Joined(parts[1..]));
      SlashesOfSum(",", Joined(parts[1..]));
      SlashesOfOne(',');
    } else {
      EmptyHasNone();
    }
  }

  lemma EmptyHasNone()
    ensures Slashes("") == 0
  {
  }

  lemma QuoteSlashes(s: string)
    ensures Slashes(Quote(s)) == Slashes(s)
  {
    hide Slashes;
    SlashesOfSum("\"", s + "\"");
    SlashesOfSum(s, "\"");
    SlashesOfOne('"');
  }

  lemma EntrySlashes(key: string, value: string)
    ensures Slashes(EntryText(key, value)) == Slashes(key) + Slashes(value)
  {
    hide Slashes;
    QuoteSlashes(key);
    SlashesOfSum(Quote(key), ":" + value);
    SlashesOfSum(":", value);
    SlashesOfOne(':');
  }

  lemma {:induction false} DigitsHaveNone(s: string)
    requires Digits(s)
    ensures Slashes(s) == 0
  {
    if s != "" { DigitsHaveNone(s[1..]); }
  }

  lemma IntSlashes(n: int)
    ensures Slashes(Text(IntTree(n))) == 0
  {
    hide Slashes, Text;
    IntTreeReads(n);
    var ds := DigitsOf(if n < 0 then -n else n);
    DigitsHaveNone(ds);
    SlashesOfSum("-", ds);
    SlashesOfOne('-');
  }

  lemma RawSlashes(s: string)
    ensures Slashes(Text(RawTree(s))) == Slashes(s)
  {
    RawIsQuoted(s);
    QuoteSlashes(s);
  }

  lemma {:induction false} InventoryTexts(inventory: seq<string>)
    ensures SlashesAll(Texts(InventoryTrees(inventory))) == SlashesAll(inventory)
  {
    hide Slashes, Text, RawTree;
    if inventory != [] {
      InventoryTexts(inventory[1..]);
      RawSlashes(inventory[0]);
      assert Texts(InventoryTrees(inventory))[1..] == Texts(InventoryTrees(inventory[1..]));
    }
  }

  lemma {:induction false} QuestTexts(quests: map<string, string>, order: seq<string>)
    ensures SlashesAll(EntryTexts(QuestEntries(quests, order))) == SlashesAll(QuestIds(quests, order))
    decreases |order|
  {
    hide Slashes, Text, RawTree, EntryText;
    if order != [] {
      QuestTexts(quests, order[1..]);
      var status := if order[0] in quests then quests[order[0]] else "";
      RawSlashes(status);
      EntrySlashes(order[0], Text(RawTree(status)));
      assert EntryTexts(QuestEntries(quests, order))[1..] == EntryTexts(QuestEntries(quests, order[1..]));
      SlashesAllOfSum([order[0], status], QuestIds(quests, order[1..]));
      PairSlashes(order[0], status);
    }
  }

  lemma PairSlashes(a: string, b: string)
    ensures SlashesAll([a, b]) == Slashes(a) + Slashes(b) && SlashesAll([a]) == Slashes(a)
  {
    assert [a, b][1..] == [b] && [b][1..] == [] && [a][1..] == [];
    assert SlashesAll([b]) == Slashes(b) + SlashesAll([b][1..]);
  }

  lemma {:induction false} ProgressTexts(progress: map<string, nat>, order: seq<string>)
    ensures SlashesAll(EntryTexts(ProgressEntries(progress, order))) == SlashesAll(order)
    decreases |order|
  {
    hide Slashes, Text, IntTree, EntryText;
    if order != [] {
      ProgressTexts(progress, order[1..]);
      var n := if order[0] in progress then progress[order[0]] else 0;
      IntSlashes(n);
      EntrySlashes(order[0], Text(IntTree(n)));
      assert EntryTexts(ProgressEntries(progress, order))[1..] == EntryTexts(ProgressEntries(progress, order[1..]));
    }
  }

  lemma BracketSlashes(parts: seq<string>)
    ensures Slashes("[" + (Joined(parts) + "]")) == SlashesAll(parts)
    ensures Slashes("{" + (Joined(parts) + "}")) == SlashesAll(parts)
  {
    hide Slashes, Joined;
    SlashesOfJoined(parts);
    SlashesOfSum("[", Joined(parts) + "]");
    SlashesOfSum(Joined(parts), "]");
    SlashesOfSum("{", Joined(parts) + "}");
    SlashesOfSum(Joined(parts), "}");
    SlashesOfOne('[');
    SlashesOfOne(']');
    SlashesOfOne('{');
    SlashesOfOne('}');
  }

  /** The seven fields behind the escaped ones. */
  function RestTexts(p: PlayerState, questOrder: seq<string>, progressOrder: seq<string>): seq<string> {
    [EntryText("current_room", Text(RawTree(p.room)))]
    + ([EntryText("hp", Text(IntTree(p.hp)))]
    + ([EntryText("max_hp", Text(IntTree(p.maxHp)))]
    + ([EntryText("last_target", Text(RawTree(p.lastTarget)))]
    + ([EntryText("inventory", Text(ListTree(InventoryTrees(p.inventory))))]
    + ([EntryText("quest_status", Text(RecordTree(QuestEntries(p.quests, questOrder))))]
    + [EntryText("npc_dialogue_progress", Text(RecordTree(ProgressEntries(p.progress, progressOrder))))])))))
  }

  lemma KeyHasNone(key: string, value: string)
    requires Clean(key)
    ensures SlashesAll([EntryText(key, value)]) == Slashes(value)
  {
    hide Slashes, EntryText;
    CleanHasNoSlashes(key);
    EntrySlashes(key, value);
    PairSlashes(EntryText(key, value), "");
  }

  /** Behind the escaped fields the text has exactly the backslashes of the ids. */
  lemma RestSlashes(p: PlayerState, questOrder: seq<string>, progressOrder: seq<string>)
    ensures SlashesAll(RestTexts(p, questOrder, progressOrder)) == SlashesAll(Ids(p, questOrder, progressOrder))
  {
    hide Slashes, SlashesAll, Text, EntryText, RawTree, IntTree, ListTree, RecordTree, Clean;
    KeysOfRestAreClean();
    var inventory := ListTree(InventoryTrees(p.inventory));
    var quests := RecordTree(QuestEntries(p.quests, questOrder));
    var progress := RecordTree(ProgressEntries(p.progress, progressOrder));
    KeyHasNone("current_room", Text(RawTree(p.room)));
    KeyHasNone("hp", Text(IntTree(p.hp)));
    KeyHasNone("max_hp", Text(IntTree(p.maxHp)));
    KeyHasNone("last_target", Text(RawTree(p.lastTarget)));
    KeyHasNone("inventory", Text(inventory));
    KeyHasNone("quest_status", Text(quests));
    KeyHasNone("npc_dialogue_progress", Text(progress));
    SevenParts(
      EntryText("current_room", Text(RawTree(p.room))), EntryText("hp", Text(IntTree(p.hp))),
      EntryText("max_hp", Text(IntTree(p.maxHp))), EntryText("last_target", Text(RawTree(p.lastTarget))),
      EntryText("inventory", Text(inventory)), EntryText("quest_status", Text(quests)),
      EntryText("npc_dialogue_progress", Text(progress)));
    RawSlashes(p.room);
    RawSlashes(p.lastTarget);
    IntSlashes(p.hp);
    IntSlashes(p.maxHp);
    ListSlashes(p, questOrder, progressOrder);
    IdsSlashes(p, questOrder, progressOrder);
  }

  lemma KeysOfRestAreClean()
    ensures Clean("current_room") && Clean("hp") && Clean("max_hp") && Clean("last_target") && Clean("inventory")
    ensures Clean("quest_status") && Clean("npc_dialogue_progress")
  {
  }

  lemma SevenParts(a: string, b: string, c: string, d: string, e: string, f: string, g: string)
    ensures SlashesAll([a] + ([b] + ([c] + ([d] + ([e] + ([f] + [g]))))))
         == SlashesAll([a]) + SlashesAll([b]) + SlashesAll([c]) + SlashesAll([d]) + SlashesAll([e]) + SlashesAll([f]) + SlashesAll([g])
  {
    hide SlashesAll;
    SlashesAllOfSum([f], [g]);
    SlashesAllOfSum([e], [f] + [g]);
    SlashesAllOfSum([d], [e] + ([f] + [g]));
    SlashesAllOfSum([c], [d] + ([e] + ([f] + [g])));
    SlashesAllOfSum([b], [c] + ([d] + ([e] + ([f] + [g]))));
    SlashesAllOfSum([a], [b] + ([c] + ([d] + ([e] + ([f] + [g])))));
  }

  lemma ListSlashes(p: PlayerState, questOrder: seq<string>, progressOrder: seq<string>)
    ensures Slashes(Text(ListTree(InventoryTrees(p.inventory)))) == SlashesAll(p.inventory)
    ensures Slashes(Text(RecordTree(QuestEntries(p.quests, questOrder)))) == SlashesAll(QuestIds(p.quests, questOrder))
    ensures Slashes(Text(RecordTree(ProgressEntries(p.progress, progressOrder)))) == SlashesAll(progressOrder)
  {
    hide Slashes, SlashesAll, Text, RawTree, IntTree, ListTree, RecordTree;
    ListTreeText(InventoryTrees(p.inventory));
    BracketSlashes(Texts(InventoryTrees(p.inventory)));
    InventoryTexts(p.inventory);
    RecordTreeText(QuestEntries(p.quests, questOrder));
    BracketSlashes(EntryTexts(QuestEntries(p.quests, questOrder)));
    QuestTexts(p.quests, questOrder);
    RecordTreeText(ProgressEntries(p.progress, progressOrder));
    BracketSlashes(EntryTexts(ProgressEntries(p.progress, progressOrder)));
    ProgressTexts(p.progress, progressOrder);
  }

  lemma IdsSlashes(p: PlayerState, questOrder: seq<string>, progressOrder: seq<string>)
    ensures SlashesAll(Ids(p, questOrder, progressOrder))
         == Slashes(p.room) + Slashes(p.lastTarget) + SlashesAll(p.inventory) + SlashesAll(QuestIds(p.quests, questOrder))
            + SlashesAll(progressOrder)
  {
    hide Slashes, SlashesAll;
    var quests := QuestIds(p.quests, questOrder);
    SlashesAllOfSum([p.room], [p.lastTarget] + (p.inventory + (quests + progressOrder)));
    SlashesAllOfSum([p.lastTarget], p.inventory + (quests + progressOrder));
    SlashesAllOfSum(p.inventory, quests + progressOrder);
    SlashesAllOfSum(quests, progressOrder);
    PairSlashes(p.room, "");
    PairSlashes(p.lastTarget, "");
  }

  // ---- reading the escaped fields ------------------------------------------------------------

  function NameEntry(p: PlayerState): Member { Entry("name", StringTree(EscapedPieces(p.id))) }

  function RaceEntry(p: PlayerState): Member { Entry("race", StringTree(EscapedPieces(p.race))) }

  function AttributesEntry(p: PlayerState): Member { Entry("special_attributes", StringTree(EscapedPieces(p.attributes))) }

  /** What the parser has entered when it comes to the ids. */
  function HeadFields(p: PlayerState): map<string, Json> {
    map["name" := String(p.id)]["race" := String(p.race)]["special_attributes" := String(p.attributes)]
  }

  /** The text behind the escaped fields. */
  function RestText(p: PlayerState, questOrder: seq<string>, progressOrder: seq<string>): string {
    Joined(RestTexts(p, questOrder, progressOrder)) + "}"
  }

  lemma SavedTextSplits(p: PlayerState, questOrder: seq<string>, progressOrder: seq<string>)
    ensures SavedText(p, questOrder, progressOrder)
         == "{" + (MemberText(NameEntry(p)) + ("," + (MemberText(RaceEntry(p)) + ("," + (MemberText(AttributesEntry(p))
            + ("," + RestText(p, questOrder, progressOrder)))))))
  {
    hide Text, MemberText, EntryText, EscapedPieces, RawTree, IntTree, ListTree, RecordTree, Entry;
    var entries := StateEntries(p, questOrder, progressOrder);
    RecordTreeText(entries);
    EntryIsText("name", StringTree(EscapedPieces(p.id)));
    EntryIsText("race", StringTree(EscapedPieces(p.race)));
    EntryIsText("special_attributes", StringTree(EscapedPieces(p.attributes)));
    var texts, rest := EntryTexts(entries), RestTexts(p, questOrder, progressOrder);
    TextsOfState(p, questOrder, progressOrder);
    ThreeThenRest(texts, rest);
  }

  lemma TextsOfState(p: PlayerState, questOrder: seq<string>, progressOrder: seq<string>)
    ensures EntryTexts(StateEntries(p, questOrder, progressOrder))
         == [EntryText("name", Text(StringTree(EscapedPieces(p.id))))]
            + ([EntryText("race", Text(StringTree(EscapedPieces(p.race))))]
            + ([EntryText("special_attributes", Text(StringTree(EscapedPieces(p.attributes))))]
            + RestTexts(p, questOrder, progressOrder)))
    ensures RestTexts(p, questOrder, progressOrder) != []
  {
    hide Text, EntryText, EscapedPieces, RawTree, IntTree, ListTree, RecordTree;
  }

  lemma ThreeThenRest(texts: seq<string>, rest: seq<string>)
    requires |texts| >= 3 && texts == [texts[0]] + ([texts[1]] + ([texts[2]] + rest)) && rest != []
    ensures "{" + (Joined(texts) + "}")
         == "{" + (texts[0] + ("," + (texts[1] + ("," + (texts[2] + ("," + (Joined(rest) + "}")))))))
  {
    hide Joined;
    var a, b, c, end := texts[0], texts[1], texts[2], Joined(rest);
    JoinedCons(c, rest);
    JoinedCons(b, [c] + rest);
    JoinedCons(a, [b] + ([c] + rest));
    Shift(c, end);
    Shift(b, c + ("," + end));
    Shift(a, b + ("," + (c + ("," + end))));
  }

  lemma JoinedCons(x: string, rest: seq<string>)
    requires rest != []
    ensures Joined([x] + rest) == x + ("," + Joined(rest))
  {
    assert ([x] + rest)[1..] == rest;
  }

  lemma Shift(x: string, y: string)
    ensures (x + ("," + y)) + "}" == x + ("," + (y + "}"))
  {
  }

  lemma HeadEntriesAreGood(p: PlayerState)
    ensures GoodMember(NameEntry(p)) && Value(NameEntry(p).value) == String(p.id) && PiecesValue(NameEntry(p).key) == "name"
    ensures GoodMember(RaceEntry(p)) && Value(RaceEntry(p).value) == String(p.race) && PiecesValue(RaceEntry(p).key) == "race"
    ensures GoodMember(AttributesEntry(p)) && Value(AttributesEntry(p).value) == String(p.attributes)
    ensures PiecesValue(AttributesEntry(p).key) == "special_attributes"
  {
    hide EscapedPieces, Good, GoodMember, Value, PiecesValue, Clean, RawPieces;
    assert Clean("name") && Clean("race") && Clean("special_attributes") by { HeadKeysAreClean(); }
    EscapedReads(p.id);
    EscapedReads(p.race);
    EscapedReads(p.attributes);
    EntryIsText("name", StringTree(EscapedPieces(p.id)));
    EntryIsText("race", StringTree(EscapedPieces(p.race)));
    EntryIsText("special_attributes", StringTree(EscapedPieces(p.attributes)));
  }

  lemma HeadKeysAreClean()
    ensures Clean("name") && Clean("race") && Clean("special_attributes")
  {
  }

  /** Where the ids start in a text. */
  function HeadLength(p: PlayerState): nat {
    4 + |MemberText(NameEntry(p))| + |MemberText(RaceEntry(p))| + |MemberText(AttributesEntry(p))|
  }

  /** Whatever the ids hold, the parser reads the three escaped fields and then goes on behind them. */
  lemma HeadIsRead(p: PlayerState, rest: string, s: string)
    requires s == "{" + (MemberText(NameEntry(p)) + ("," + (MemberText(RaceEntry(p)) + ("," + (MemberText(AttributesEntry(p))
                  + ("," + rest))))))
    ensures HeadLength(p) <= |s| && s[HeadLength(p)..] == rest && Has(s, 0, '{')
    ensures ParseMembers(s, 1, map[]) == ParseMembers(s, HeadLength(p), HeadFields(p))
  {
    hide Spells, ParseMembers, MemberText, NameEntry, RaceEntry, AttributesEntry, GoodMember, Value, PiecesValue;
    var a, b, c := NameEntry(p), RaceEntry(p), AttributesEntry(p);
    HeadEntriesAreGood(p);
    var after3 := "," + rest;
    var after2 := "," + (MemberText(c) + after3);
    var after1 := "," + (MemberText(b) + after2);
    SpellsSlice(s, 0, |s|);
    assert s[0..|s|] == s;
    SpellsParts(s, 0, "{", MemberText(a) + after1);
    SpellsChar(s, 0, '{');
    OneMember(s, 1, a, MemberText(b) + after2, map[]);
    var p2 := 1 + |MemberText(a)| + 1;
    OneMember(s, p2, b, MemberText(c) + after3, map["name" := String(p.id)]);
    var p3 := p2 + |MemberText(b)| + 1;
    OneMember(s, p3, c, rest, map["name" := String(p.id)]["race" := String(p.race)]);
    SpellsRun(s, HeadLength(p), rest);
    assert |s| == HeadLength(p) + |rest|;
    assert s[HeadLength(p)..] == rest;
  }

  lemma OneMember(s: string, pos: nat, m: Member, rest: string, acc: map<string, Json>)
    requires GoodMember(m) && Spells(s, pos, MemberText(m) + ("," + rest))
    ensures
      var next := pos + |MemberText(m)| + 1;
      && pos <= next <= |s| && Spells(s, next, rest)
      && ParseMembers(s, pos, acc) == ParseMembers(s, next, acc[PiecesValue(m.key) := Value(m.value)])
  {
    hide Spells, ParseMembers, MemberText, GoodMember, Value, PiecesValue;
    MemberComplete(s, pos, m, "," + rest, acc);
    SpellsParts(s, pos + |MemberText(m)|, ",", rest);
  }

  /** The file is one object, read from behind its brace. */
  lemma FileIsObject(s: string)
    requires Has(s, 0, '{') && 1 < |s| && s[1] == '"' && ParseJson(s).Ok?
    ensures ParseMembers(s, 1, map[]).result == ParseJson(s)
  {
    assert SkipWs(s, 0) == 0 && SkipWs(s, 1) == 1;
    assert ParseObject(s, 0) == ParseMembers(s, 1, map[]);
    assert ParseValue(s, 0) == ParseObject(s, 0);
  }

  lemma StartsWithQuote(p: PlayerState)
    ensures MemberText(NameEntry(p)) != "" && MemberText(NameEntry(p))[0] == '"'
  {
    hide Text, PiecesText;
  }

  // ---- the condition -------------------------------------------------------------------------

  predicate IdsAreClean(p: PlayerState) {
    && Clean(p.room) && Clean(p.lastTarget)
    && (forall i :: i in p.inventory ==> Clean(i))
    && (forall q :: q in p.quests ==> Clean(q) && Clean(p.quests[q]))
    && (forall n :: n in p.progress ==> Clean(n))
  }

  predicate NumbersFit(p: PlayerState) {
    FitsInt(p.hp) && FitsInt(p.maxHp) && forall n :: n in p.progress ==> FitsInt(p.progress[n])
  }

  lemma {:induction false} QuestIdsMembers(quests: map<string, string>, order: seq<string>, q: string)
    requires q in order && q in quests
    ensures q in QuestIds(quests, order) && quests[q] in QuestIds(quests, order)
    decreases |order|
  {
    var pair := [order[0], if order[0] in quests then quests[order[0]] else ""];
    if order[0] == q {
      assert pair[0] == q && pair[1] == quests[q];
      assert QuestIds(quests, order)[0] == q && QuestIds(quests, order)[1] == quests[q];
    } else {
      QuestIdsMembers(quests, order[1..], q);
      assert QuestIds(quests, order) == pair + QuestIds(quests, order[1..]);
    }
  }

  lemma CleanIdsAreAll(p: PlayerState, questOrder: seq<string>, progressOrder: seq<string>)
    requires IsOrderOf(questOrder, p.quests.Keys) && IsOrderOf(progressOrder, p.progress.Keys)
    requires forall i :: i in Ids(p, questOrder, progressOrder) ==> Clean(i)
    ensures IdsAreClean(p)
  {
    hide Clean, QuestIds, NoDuplicates;
    var ids, quests := Ids(p, questOrder, progressOrder), QuestIds(p.quests, questOrder);
    assert p.room in ids && p.lastTarget in ids && (forall i :: i in p.inventory ==> i in ids);
    assert (forall i :: i in quests ==> i in ids) && (forall i :: i in progressOrder ==> i in ids);
    forall q | q in p.quests ensures Clean(q) && Clean(p.quests[q]) {
      QuestIdsMembers(p.quests, questOrder, q);
    }
  }

  /** A file that loads as the state it was saved from has clean ids. */
  lemma SurvivorsAreClean(p: PlayerState, questOrder: seq<string>, progressOrder: seq<string>)
    requires IsOrderOf(questOrder, p.quests.Keys) && IsOrderOf(progressOrder, p.progress.Keys)
    requires LoadText(p.id, SavedText(p, questOrder, progressOrder)) == Some(p)
    ensures IdsAreClean(p)
  {
    hide Slashes, SlashesAll, NeededAll, NeededFor, SavedText, ParseMembers, ParseJson, LoadedState, MemberText, RestTexts, Joined,
         IdsAreClean, Ids, HeadFields, HeadLength, NoDuplicates, GoodMembers, MembersText, Entered;
    var s := SavedText(p, questOrder, progressOrder);
    var rest := RestText(p, questOrder, progressOrder);
    SavedTextSplits(p, questOrder, progressOrder);
    HeadIsRead(p, rest, s);
    StartsWithQuote(p);
    FileIsObject(s);
    var ms := MembersSound(s, HeadLength(p), HeadFields(p));
    var fields := Entered(HeadFields(p), ms);
    LoadedNeeds(p, fields, questOrder, progressOrder);
    IdKeysDiffer();
    FieldsPay(HeadFields(p), ms, ID_KEYS, questOrder, progressOrder);
    HeadNeedsNothing(p, questOrder, progressOrder);
    MembersInRest(s, HeadLength(p), ms);
    RestHas(p, questOrder, progressOrder);
    BalancedIsClean(Ids(p, questOrder, progressOrder));
    CleanIdsAreAll(p, questOrder, progressOrder);
  }

  lemma MembersInRest(s: string, pos: nat, ms: Members)
    requires pos <= |s| && Spells(s, pos, MembersText(ms) + "}")
    ensures Slashes(s[pos..]) >= Slashes(MembersText(ms))
  {
    hide Slashes, MembersText, Spells;
    var t := MembersText(ms) + "}";
    SpellsRun(s, pos, t);
    assert s[pos..] == t + s[pos + |t|..];
    SlashesOfSum(t, s[pos + |t|..]);
    SlashesOfSum(MembersText(ms), "}");
  }

  lemma RestHas(p: PlayerState, questOrder: seq<string>, progressOrder: seq<string>)
    ensures Slashes(RestText(p, questOrder, progressOrder)) == SlashesAll(Ids(p, questOrder, progressOrder))
  {
    hide Slashes, SlashesAll, RestTexts, Joined, Ids;
    RestSlashes(p, questOrder, progressOrder);
    SlashesOfJoined(RestTexts(p, questOrder, progressOrder));
    SlashesOfSum(Joined(RestTexts(p, questOrder, progressOrder)), "}");
    SlashesOfOne('}');
  }

  lemma HeadNeedsNothing(p: PlayerState, questOrder: seq<string>, progressOrder: seq<string>)
    ensures NeededFor(HeadFields(p), ID_KEYS, questOrder, progressOrder) == 0
  {
    hide Needed;
    IdKeysDiffer();
    FiveFields(HeadFields(p), questOrder, progressOrder);
    assert ID_KEYS[0] !in HeadFields(p) && ID_KEYS[1] !in HeadFields(p) && ID_KEYS[2] !in HeadFields(p)
        && ID_KEYS[3] !in HeadFields(p) && ID_KEYS[4] !in HeadFields(p);
    assert Needed("") == 0 by { NoneNeeded(); }
    NothingNeeded(questOrder);
    NothingNeeded(progressOrder);
    assert NeededAll(TextsOf([])) == 0;
  }

  lemma NoneNeeded()
    ensures Needed("") == 0
  {
  }

  /** A character whose numbers fit survives its file exactly if no id in it holds a quote or a backslash:
      not the room, the last target, an item, a quest, a quest status or an NPC. */
  lemma SurvivesExactlyIfClean(p: PlayerState, questOrder: seq<string>, progressOrder: seq<string>)
    requires NumbersFit(p) && IsOrderOf(questOrder, p.quests.Keys) && IsOrderOf(progressOrder, p.progress.Keys)
    ensures LoadText(p.id, SavedText(p, questOrder, progressOrder)) == Some(p) <==> IdsAreClean(p)
  {
    hide SavedText, LoadText, IsOrderOf, Clean;
    if IdsAreClean(p) {
      LoadInvertsSave(p, questOrder, progressOrder);
    }
    if LoadText(p.id, SavedText(p, questOrder, progressOrder)) == Some(p) {
      SurvivorsAreClean(p, questOrder, progressOrder);
    }
  }

  // ---- a file that no longer parses ----------------------------------------------------------

  /** A key, its colon, and the string behind it. */
  lemma KeyAndString(s: string, pos: nat, key: string, u: string, rest: string)
    requires Clean(key) && Clean(u)
    requires Spells(s, pos, Quote(key) + (":" + (Quote(u) + rest)))
    ensures
      var at := pos + |Quote(key)| + 1;
      && pos <= at <= |s| && ParseKey(s, pos) == Parsed(Ok(String(key)), at)
      && Has(s, at, '"') && ParseString(s, at) == Parsed(Ok(String(u)), at + |Quote(u)|) && Spells(s, at + |Quote(u)|, rest)
  {
    hide Spells, Clean, ParseString, GoodPieces, PiecesText, PiecesValue, RawPieces;
    var m := Entry(key, RawTree(u));
    RawPiecesText(key);
    RawPiecesText(u);
    RawReads(u);
    EntryIsText(key, RawTree(u));
    var tail := Quote(u) + rest;
    assert m.before + (Quoted(m.key) + (m.afterKey + (":" + tail))) == Quote(key) + (":" + tail);
    KeyComplete(s, pos, m, tail);
    var at := pos + |Quote(key)| + 1;
    SpellsParts(s, at, Quote(u), rest);
    StringComplete(s, at, RawPieces(u));
  }

  /** A member whose value is a string with something behind it that is neither blank nor a separator. */
  lemma BrokenMember(s: string, pos: nat, key: string, u: string, rest: string, acc: map<string, Json>)
    requires Clean(key) && Clean(u)
    requires Spells(s, pos, Quote(key) + (":" + (Quote(u) + rest)))
    requires rest != "" && !IsSpace(rest[0]) && rest[0] != ',' && rest[0] != '}'
    ensures pos <= |s| && ParseMembers(s, pos, acc).result.Fail?
  {
    hide Spells, Clean, ParseString, ParseKey;
    KeyAndString(s, pos, key, u, rest);
    FirstChar(s, pos + |Quote(key)| + 1 + |Quote(u)|, rest);
  }

  /** A character in a room whose id holds a quote is lost: its file does not parse, so it does not load. The
      id is `u"v` with something after the quote that cannot follow a string. */
  lemma QuotedRoomIsLost(p: PlayerState, u: string, v: string, questOrder: seq<string>, progressOrder: seq<string>)
    requires p.room == u + ("\"" + v) && Clean(u) && v != "" && !IsSpace(v[0]) && v[0] != ',' && v[0] != '}'
    ensures LoadText(p.id, SavedText(p, questOrder, progressOrder)) == None
  {
    hide SavedText, ParseMembers, ParseJson, LoadedState, MemberText, RestTexts, Joined, HeadFields, HeadLength, Clean, Spells;
    var s, rest := SavedText(p, questOrder, progressOrder), RestText(p, questOrder, progressOrder);
    SavedTextSplits(p, questOrder, progressOrder);
    HeadIsRead(p, rest, s);
    StartsWithQuote(p);
    RoomFirst(p, u, v, questOrder, progressOrder);
    var more :| rest == Quote("current_room") + (":" + (Quote(u) + (v + more)));
    SpellsSlice(s, HeadLength(p), |s|);
    assert s[HeadLength(p)..|s|] == rest;
    KeysOfRestAreClean();
    BrokenMember(s, HeadLength(p), "current_room", u, v + more, HeadFields(p));
    if ParseJson(s).Ok? { FileIsObject(s); }
  }

  lemma RoomFirst(p: PlayerState, u: string, v: string, questOrder: seq<string>, progressOrder: seq<string>)
    requires p.room == u + ("\"" + v)
    ensures exists more :: RestText(p, questOrder, progressOrder) == Quote("current_room") + (":" + (Quote(u) + (v + more)))
  {
    hide Text, RawTree, IntTree, ListTree, RecordTree;
    var texts := RestTexts(p, questOrder, progressOrder);
    RawIsQuoted(p.room);
    var later := texts[1..];
    assert later != [] && texts == [texts[0]] + later;
    JoinedCons(texts[0], later);
    var more := "\"" + (("," + Joined(later)) + "}");
    assert Quote(p.room) == Quote(u) + (v + "\"");
    RoomText(Quote("current_room"), Quote(u), v, "," + Joined(later));
  }

  lemma RoomText(key: string, u: string, v: string, more: string)
    ensures ((key + (":" + (u + (v + "\"")))) + more) + "}" == key + (":" + (u + (v + ("\"" + (more + "}")))))
  {
  }

  /** A new character put into a room called `a"b`. */
  lemma LostInRoom(name: string)
    ensures LoadText(name, SavedText(NewCharacter(name, "", "").(room := "a\"b"), [], [])) == None
  {
    hide LoadText, SavedText;
    assert "a\"b" == "a" + ("\"" + "b");
    QuotedRoomIsLost(NewCharacter(name, "", "").(room := "a\"b"), "a", "b", [], []);
  }
}
