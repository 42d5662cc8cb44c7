/** Character files: what saving writes, what loading makes of it, and the proof that loading inverts
    saving. */
module CharacterStore {
  import opened Lists
  import opened WorldModel
  import opened Json
  import opened JsonGrammar
  import opened JsonSound
  import opened CharacterText

  const MAX_INT := 0x7fff_ffff

  predicate FitsInt(n: int) {
    -MAX_INT - 1 <= n <= MAX_INT
  }

  /** What a character file can hold: ids that need no escaping, numbers that fit an `int`. */
  ghost predicate Savable(p: PlayerState) {
    && Clean(p.room) && Clean(p.lastTarget)
    && (forall i :: i in p.inventory ==> Clean(i))
    && (forall q :: q in p.quests ==> Clean(q) && Clean(p.quests[q]))
    && (forall n :: n in p.progress ==> Clean(n) && FitsInt(p.progress[n]))
    && FitsInt(p.hp) && FitsInt(p.maxHp)
  }

  // ---- saving --------------------------------------------------------------------------------

  function InventoryTrees(inventory: seq<string>): seq<Tree> {
    seq(|inventory|, i requires 0 <= i < |inventory| => RawTree(inventory[i]))
  }

  function QuestEntries(quests: map<string, string>, order: seq<string>): seq<(string, Tree)> {
    seq(|order|, i requires 0 <= i < |order| => (order[i], RawTree(if order[i] in quests then quests[order[i]] else "")))
  }

  function ProgressEntries(progress: map<string, nat>, order: seq<string>): seq<(string, Tree)> {
    seq(|order|, i requires 0 <= i < |order| => (order[i], IntTree(if order[i] in progress then progress[order[i]] else 0)))
  }

  function StateEntries(p: PlayerState, questOrder: seq<string>, progressOrder: seq<string>): seq<(string, Tree)> {
    [("name", StringTree(EscapedPieces(p.id))),
     ("race", StringTree(EscapedPieces(p.race))),
     ("special_attributes", StringTree(EscapedPieces(p.attributes))),
     ("current_room", RawTree(p.room)),
     ("hp", IntTree(p.hp)),
     ("max_hp", IntTree(p.maxHp)),
     ("last_target", RawTree(p.lastTarget)),
     ("inventory", ListTree(InventoryTrees(p.inventory))),
     ("quest_status", RecordTree(QuestEntries(p.quests, questOrder))),
     ("npc_dialogue_progress", RecordTree(ProgressEntries(p.progress, progressOrder)))]
  }

  /** The text of a character file, for one way of iterating the two maps. */
  function SavedText(p: PlayerState, questOrder: seq<string>, progressOrder: seq<string>): string {
    Text(RecordTree(StateEntries(p, questOrder, progressOrder)))
  }

  /** What saving may write: the maps are iterated in some order. */
  ghost predicate IsSavedText(text: string, p: PlayerState) {
    exists qs, ns :: IsOrderOf(qs, p.quests.Keys) && IsOrderOf(ns, p.progress.Keys) && text == SavedText(p, qs, ns)
  }

  // ---- loading -------------------------------------------------------------------------------

  /** The cast to `size_t`: a negative number wraps around. */
  function SizeT(n: int): nat {
    if n < 0 then (n + 0x1_0000_0000_0000_0000) % 0x1_0000_0000_0000_0000 else n
  }

  /** What loading makes of a parsed character file. */
  function LoadedState(name: string, root: Json): PlayerState {
    var statuses := Fields(Field(root, "quest_status"));
    var progress := Fields(Field(root, "npc_dialogue_progress"));
    PlayerState(
      name, AsString(Field(root, "race")), AsString(Field(root, "special_attributes")), AsString(Field(root, "current_room")),
      TextsOf(ItemsOf(Field(root, "inventory"))),
      AsInt(Field(root, "hp")), AsInt(Field(root, "max_hp")), AsString(Field(root, "last_target")),
      map q | q in statuses :: AsString(statuses[q]),
      map n | n in progress :: SizeT(AsInt(progress[n])))
  }

  datatype Option<T> = None | Some(value: T)

  function LoadText(name: string, text: string): Option<PlayerState> {
    match ParseJson(text)
    case Ok(root) => Some(LoadedState(name, root))
    case Fail(_) => None
  }

  // ---- loading inverts saving ----------------------------------------------------------------

  lemma RawReads(s: string)
    requires Clean(s)
    ensures Good(RawTree(s)) && Value(RawTree(s)) == String(s)
  {
    RawPiecesText(s);
  }

  lemma EscapedReads(s: string)
    ensures Good(StringTree(EscapedPieces(s))) && Value(StringTree(EscapedPieces(s))) == String(s)
  {
    EscapedPiecesText(s);
  }

  lemma InventoryReads(inventory: seq<string>)
    requires forall i :: i in inventory ==> Clean(i)
    ensures Good(ListTree(InventoryTrees(inventory)))
    ensures Value(ListTree(InventoryTrees(inventory))) == Array(seq(|inventory|, i requires 0 <= i < |inventory| => String(inventory[i])))
  {
    hide Good, Value, ListTree, RawTree, Clean;
    forall i | 0 <= i < |inventory| ensures Good(RawTree(inventory[i])) && Value(RawTree(inventory[i])) == String(inventory[i]) {
      RawReads(inventory[i]);
    }
    ListTreeValue(InventoryTrees(inventory));
  }

  lemma QuestsRead(quests: map<string, string>, order: seq<string>)
    requires IsOrderOf(order, quests.Keys) && forall q :: q in quests ==> Clean(q) && Clean(quests[q])
    ensures Good(RecordTree(QuestEntries(quests, order)))
    ensures Fields(Value(RecordTree(QuestEntries(quests, order)))) == map q | q in quests :: String(quests[q])
  {
    hide Good, Value, RecordTree, RawTree, Clean;
    var entries := QuestEntries(quests, order);
    forall i | 0 <= i < |entries| ensures Clean(entries[i].0) && Good(entries[i].1) && Value(entries[i].1) == String(quests[order[i]]) {
      RawReads(quests[order[i]]);
    }
    RecordReads(entries);
    var read := Value(RecordTree(entries));
    forall q ensures (q in Fields(read) <==> q in quests) && (q in quests ==> Fields(read)[q] == String(quests[q])) {
      EntryOfKey(entries, order, q);
      if q in quests {
        var i :| 0 <= i < |order| && order[i] == q;
        assert Field(read, entries[i].0) == Value(entries[i].1);
      }
    }
  }

  lemma EntryOfKey(entries: seq<(string, Tree)>, order: seq<string>, k: string)
    requires |entries| == |order| && forall i :: 0 <= i < |order| ==> entries[i].0 == order[i]
    ensures HasKey(entries, k) <==> k in order
  {
    if k in order {
      var i :| 0 <= i < |order| && order[i] == k;
      assert entries[i].0 == k;
    }
  }

  lemma ProgressReads(progress: map<string, nat>, order: seq<string>)
    requires IsOrderOf(order, progress.Keys) && forall n :: n in progress ==> Clean(n)
    ensures Good(RecordTree(ProgressEntries(progress, order)))
    ensures
      var fields := Fields(Value(RecordTree(ProgressEntries(progress, order))));
      fields.Keys == progress.Keys && forall n {:trigger fields[n]} :: n in progress ==> AsInt(fields[n]) == progress[n]
  {
    hide Good, Value, RecordTree, IntTree, Clean, AsInt;
    var entries := ProgressEntries(progress, order);
    forall i | 0 <= i < |entries| ensures Clean(entries[i].0) && Good(entries[i].1) && AsInt(Value(entries[i].1)) == progress[order[i]] {
      IntTreeReads(progress[order[i]]);
    }
    RecordReads(entries);
    var read := Value(RecordTree(entries));
    forall n ensures (n in Fields(read) <==> n in progress) && (n in progress ==> AsInt(Fields(read)[n]) == progress[n]) {
      EntryOfKey(entries, order, n);
      if n in progress {
        var i :| 0 <= i < |order| && order[i] == n;
        assert Field(read, entries[i].0) == Value(entries[i].1);
      }
    }
  }

  /** The ten keys of a character file are different. */
  lemma StateKeysDiffer(p: PlayerState, questOrder: seq<string>, progressOrder: seq<string>)
    ensures DistinctKeys(StateEntries(p, questOrder, progressOrder))
  {
    assert "name"[0] != "race"[0] && "current_room"[0] != "quest_status"[0];
    var lengths := [4, 4, 18, 12, 2, 6, 11, 9, 12, 21];
    var entries := StateEntries(p, questOrder, progressOrder);
    assert forall i :: 0 <= i < 10 ==> |entries[i].0| == lengths[i];
  }

  lemma StateKeysAreClean(p: PlayerState, questOrder: seq<string>, progressOrder: seq<string>)
    ensures
      var entries := StateEntries(p, questOrder, progressOrder);
      forall i :: 0 <= i < |entries| ==> Clean(entries[i].0)
  {
    hide EscapedPieces, RawTree, IntTree, ListTree, RecordTree;
  }

  lemma PlainTreesAreGood(p: PlayerState, questOrder: seq<string>, progressOrder: seq<string>)
    requires Savable(p)
    ensures
      var entries := StateEntries(p, questOrder, progressOrder);
      forall i :: 0 <= i < 7 ==> Good(entries[i].1)
  {
    hide Good, EscapedPieces, RawTree, IntTree, ListTree, RecordTree, Clean;
    EscapedReads(p.id);
    EscapedReads(p.race);
    EscapedReads(p.attributes);
    RawReads(p.room);
    RawReads(p.lastTarget);
    IntTreeReads(p.hp);
    IntTreeReads(p.maxHp);
  }

  lemma ListTreesAreGood(p: PlayerState, questOrder: seq<string>, progressOrder: seq<string>)
    requires Savable(p) && IsOrderOf(questOrder, p.quests.Keys) && IsOrderOf(progressOrder, p.progress.Keys)
    ensures
      var entries := StateEntries(p, questOrder, progressOrder);
      Good(entries[7].1) && Good(entries[8].1) && Good(entries[9].1)
  {
    hide Good, EscapedPieces, RawTree, IntTree, ListTree, RecordTree, IsOrderOf, Clean;
    InventoryReads(p.inventory);
    QuestsRead(p.quests, questOrder);
    ProgressReads(p.progress, progressOrder);
  }

  lemma TenEntries(p: PlayerState, questOrder: seq<string>, progressOrder: seq<string>)
    ensures |StateEntries(p, questOrder, progressOrder)| == 10
  {
  }

  lemma EntriesAreGood(p: PlayerState, questOrder: seq<string>, progressOrder: seq<string>)
    requires Savable(p) && IsOrderOf(questOrder, p.quests.Keys) && IsOrderOf(progressOrder, p.progress.Keys)
    ensures GoodEntries(StateEntries(p, questOrder, progressOrder))
  {
    hide Good, Clean, StateEntries, Savable, IsOrderOf;
    StateKeysAreClean(p, questOrder, progressOrder);
    PlainTreesAreGood(p, questOrder, progressOrder);
    ListTreesAreGood(p, questOrder, progressOrder);
    assert |StateEntries(p, questOrder, progressOrder)| == 10 by { TenEntries(p, questOrder, progressOrder); }
  }

  /** Loading inverts saving, for any race and attributes text and whatever the iteration order of the maps. */
  lemma LoadInvertsSave(p: PlayerState, questOrder: seq<string>, progressOrder: seq<string>)
    requires Savable(p) && IsOrderOf(questOrder, p.quests.Keys) && IsOrderOf(progressOrder, p.progress.Keys)
    ensures LoadText(p.id, SavedText(p, questOrder, progressOrder)) == Some(p)
  {
    hide Good, Value, Text, EscapedPieces, RawTree, IntTree, ListTree, RecordTree, IsOrderOf, ParseJson, AsInt, DistinctKeys, GoodEntries;
    var entries := StateEntries(p, questOrder, progressOrder);
    var tree := RecordTree(entries);
    StateKeysDiffer(p, questOrder, progressOrder);
    EntriesAreGood(p, questOrder, progressOrder);
    RecordReads(entries);
    assert Text(tree) == "" + (Text(tree) + "");
    ReadsIsParsed(Text(tree), "", tree, "");
    EntriesRead(p, questOrder, progressOrder, Value(tree));
  }

  lemma SavedTextsLoad(text: string, p: PlayerState)
    requires Savable(p) && IsSavedText(text, p)
    ensures LoadText(p.id, text) == Some(p)
  {
    hide Savable, IsOrderOf, SavedText, LoadText;
    var qs, ns :| IsOrderOf(qs, p.quests.Keys) && IsOrderOf(ns, p.progress.Keys) && text == SavedText(p, qs, ns);
    LoadInvertsSave(p, qs, ns);
  }

  /** The fields of the parsed record give back the parts of the state. */
  lemma EntriesRead(p: PlayerState, questOrder: seq<string>, progressOrder: seq<string>, root: Json)
    requires Savable(p) && IsOrderOf(questOrder, p.quests.Keys) && IsOrderOf(progressOrder, p.progress.Keys)
    requires
      var entries := StateEntries(p, questOrder, progressOrder);
      forall i {:trigger entries[i]} :: 0 <= i < |entries| ==> Field(root, entries[i].0) == Value(entries[i].1)
    ensures LoadedState(p.id, root) == p
  {
    hide Good, Value, Text, EscapedPieces, RawTree, IntTree, ListTree, RecordTree, IsOrderOf, AsInt, Clean;
    var entries := StateEntries(p, questOrder, progressOrder);
    assert |entries| == 10;
    assert entries[1].0 == "race" && entries[2].0 == "special_attributes" && entries[3].0 == "current_room"
        && entries[4].0 == "hp" && entries[5].0 == "max_hp" && entries[6].0 == "last_target" && entries[7].0 == "inventory"
        && entries[8].0 == "quest_status" && entries[9].0 == "npc_dialogue_progress";
    EscapedReads(p.race);
    EscapedReads(p.attributes);
    RawReads(p.room);
    RawReads(p.lastTarget);
    IntTreeReads(p.hp);
    IntTreeReads(p.maxHp);
    InventoryReads(p.inventory);
    QuestsRead(p.quests, questOrder);
    ProgressReads(p.progress, progressOrder);
    var q := LoadedState(p.id, root);
    assert q.inventory == p.inventory;
    assert q.quests == p.quests;
    assert q.progress == p.progress;
  }

  // ---- ids that are written as they are --------------------------------------------------------

  /** As a JSON text of its own, an id between quotes reads back as itself exactly when it holds no quote and
      no backslash. */
  lemma RawIdSurvives(id: string)
    ensures ParseJson(Quote(id)) == Ok(String(id)) <==> Clean(id)
  {
    hide ParseJson, Good, Value, Text;
    var raw := RawTree(id);
    RawPiecesText(id);
    assert Text(raw) == Quote(id) by { RawIsQuoted(id); }
    if Clean(id) {
      RawReads(id);
      assert Text(raw) == "" + (Text(raw) + "");
      ReadsIsParsed(Text(raw), "", raw, "");
    }
    if ParseJson(Quote(id)) == Ok(String(id)) {
      var before, t, after := ParsedReads(Quote(id));
      QuotedOnly(id, before, t, after);
    }
  }

  lemma RawIsQuoted(id: string)
    ensures Text(RawTree(id)) == Quote(id)
  {
    RawPiecesText(id);
  }

  lemma HeadOf(a: string, b: string)
    ensures a != "" ==> (a + b)[0] == a[0]
  {
  }

  lemma LastOf(a: string, b: string)
    ensures b != "" ==> (a + b)[|a + b| - 1] == b[|b| - 1]
  {
  }

  /** No blanks fit around a text that starts and ends with a quote. */
  lemma NoBlanksAround(id: string, before: string, t: Tree, after: string)
    requires Reads(Quote(id), before, t, after)
    ensures Text(t) == Quote(id)
  {
    hide Text, Good;
    HeadOf(before, Text(t) + after);
    LastOf(before + Text(t), after);
    assert Quote(id) == before + Text(t) + after;
    var text := Quote(id);
    assert text[0] == '"' && text[|text| - 1] == '"';
    assert before == "" && after == "";
    assert "" + (Text(t) + "") == Text(t);
  }

  lemma UnquoteBoth(a: string, b: string)
    requires Quote(a) == Quote(b)
    ensures a == b
  {
    assert a == Quote(a)[1..|a| + 1] && |Quote(a)| == |a| + 2;
    assert b == Quote(b)[1..|b| + 1] && |Quote(b)| == |b| + 2;
  }

  /** A string literal whose value is as long as its text has no escapes. */
  lemma QuotedOnly(id: string, before: string, t: Tree, after: string)
    requires Reads(Quote(id), before, t, after) && Value(t) == String(id)
    ensures Clean(id)
  {
    hide Quote, PiecesText, PiecesValue, Clean, Blank;
    NoBlanksAround(id, before, t, after);
    assert t.StringTree?;
    PiecesAreQuoted(t.pieces);
    UnquoteBoth(id, PiecesText(t.pieces));
    NoEscapes(t.pieces);
  }

  lemma PiecesAreQuoted(ps: seq<Piece>)
    ensures Text(StringTree(ps)) == Quote(PiecesText(ps))
  {
  }

  lemma {:induction false} NoEscapes(ps: seq<Piece>)
    requires GoodPieces(ps)
    ensures |PiecesText(ps)| >= |PiecesValue(ps)|
    ensures |PiecesText(ps)| == |PiecesValue(ps)| ==> Clean(PiecesText(ps))
  {
    if ps != [] {
      NoEscapes(ps[1..]);
    }
  }
}
