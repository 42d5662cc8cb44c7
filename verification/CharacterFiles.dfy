/** The character store as an object over a directory of files. */
module CharacterFiles {
  import opened Lists
  import opened WorldModel
  import opened Common
  import opened Json
  import opened JsonGrammar
  import opened CharacterText
  import opened CharacterStore

  function PathFor(directory: string, name: string): string {
    directory + "/" + name + ".json"
  }

  function TmpPathFor(directory: string, name: string): string {
    PathFor(directory, name) + ".tmp"
  }

  /** `is_valid_name`, character by character. */
  method CheckName(name: string) returns (valid: bool)
    ensures valid <==> IsValidName(name)
  {
    if name == "" || |name| > MAX_NAME_LENGTH { return false; }
    for i := 0 to |name|
      invariant forall k :: 0 <= k < i ==> IsNameChar(name[k])
    {
      if !IsNameChar(name[i]) { return false; }
    }
    return true;
  }

  // ---- what saving prints --------------------------------------------------------------------

  lemma OneMore(text: string, open: string, parts: seq<string>, part: string)
    requires text == open + Joined(parts)
    ensures text + ((if parts == [] then "" else ",") + part) == open + Joined(parts + [part])
  {
    JoinedSnoc(parts, part);
    if parts == [] {
      assert Joined(parts) == "" && "" + part == part;
      assert open + "" == open;
    } else {
      assert (open + Joined(parts)) + ("," + part) == open + (Joined(parts) + ("," + part));
    }
  }

  method RenderInventory(inventory: seq<string>) returns (text: string)
    ensures text == Text(ListTree(InventoryTrees(inventory)))
  {
    hide Text, RawTree, Joined;
    text := "[";
    ghost var parts := [];
    assert text == "[" + Joined([]) by { JoinedNothing(); }
    for i := 0 to |inventory|
      invariant text == "[" + Joined(parts)
      invariant parts == Texts(InventoryTrees(inventory[..i]))
    {
      OneMore(text, "[", parts, Quote(inventory[i]));
      RawIsQuoted(inventory[i]);
      parts := parts + [Quote(inventory[i])];
      if i > 0 {
        text := text + ("," + Quote(inventory[i]));
      } else {
        text := text + ("" + Quote(inventory[i]));
      }
      assert parts == Texts(InventoryTrees(inventory[..i + 1]));
    }
    assert inventory[..|inventory|] == inventory;
    ListTreeText(InventoryTrees(inventory));
    assert "[" + Joined(parts) + "]" == "[" + (Joined(parts) + "]");
    text := text + "]";
  }

  lemma JoinedNothing()
    ensures Joined([]) == ""
  {
  }

  method RenderQuests(quests: map<string, string>, order: seq<string>) returns (text: string)
    requires IsOrderOf(order, quests.Keys)
    ensures text == Text(RecordTree(QuestEntries(quests, order)))
  {
    hide Text, RawTree, Joined, EntryText, IsOrderOf;
    OrderedKeys(order, quests.Keys);
    text := "{";
    ghost var parts := [];
    assert text == "{" + Joined([]) by { JoinedNothing(); }
    for i := 0 to |order|
      invariant text == "{" + Joined(parts)
      invariant parts == EntryTexts(QuestEntries(quests, order[..i]))
    {
      var part := EntryText(order[i], Quote(quests[order[i]]));
      OneMore(text, "{", parts, part);
      RawIsQuoted(quests[order[i]]);
      parts := parts + [part];
      if i > 0 {
        text := text + ("," + part);
      } else {
        text := text + ("" + part);
      }
      assert parts == EntryTexts(QuestEntries(quests, order[..i + 1]));
    }
    assert order[..|order|] == order;
    RecordTreeText(QuestEntries(quests, order));
    assert "{" + Joined(parts) + "}" == "{" + (Joined(parts) + "}");
    text := text + "}";
  }

  lemma OrderedKeys(order: seq<string>, keys: set<string>)
    requires IsOrderOf(order, keys)
    ensures forall i :: 0 <= i < |order| ==> order[i] in keys
  {
  }

  method RenderProgress(progress: map<string, nat>, order: seq<string>) returns (text: string)
    requires IsOrderOf(order, progress.Keys)
    ensures text == Text(RecordTree(ProgressEntries(progress, order)))
  {
    hide Text, IntTree, IntText, Joined, EntryText, IsOrderOf;
    OrderedKeys(order, progress.Keys);
    text := "{";
    ghost var parts := [];
    assert text == "{" + Joined([]) by { JoinedNothing(); }
    for i := 0 to |order|
      invariant text == "{" + Joined(parts)
      invariant parts == EntryTexts(ProgressEntries(progress, order[..i]))
    {
      var part := EntryText(order[i], IntText(progress[order[i]]));
      OneMore(text, "{", parts, part);
      IntTreeReads(progress[order[i]]);
      parts := parts + [part];
      if i > 0 {
        text := text + ("," + part);
      } else {
        text := text + ("" + part);
      }
      assert parts == EntryTexts(ProgressEntries(progress, order[..i + 1]));
    }
    assert order[..|order|] == order;
    RecordTreeText(ProgressEntries(progress, order));
    assert "{" + Joined(parts) + "}" == "{" + (Joined(parts) + "}");
    text := text + "}";
  }

  lemma EscapedIsQuoted(s: string)
    ensures Text(StringTree(EscapedPieces(s))) == Quote(Escape(s))
  {
    EscapedPiecesText(s);
  }

  /** The texts of the ten entries of a character file. */
  ghost function StateTexts(p: PlayerState, questOrder: seq<string>, progressOrder: seq<string>): seq<string> {
    [EntryText("name", Quote(Escape(p.id))),
     EntryText("race", Quote(Escape(p.race))),
     EntryText("special_attributes", Quote(Escape(p.attributes))),
     EntryText("current_room", Quote(p.room)),
     EntryText("hp", IntText(p.hp)),
     EntryText("max_hp", IntText(p.maxHp)),
     EntryText("last_target", Quote(p.lastTarget)),
     EntryText("inventory", Text(ListTree(InventoryTrees(p.inventory)))),
     EntryText("quest_status", Text(RecordTree(QuestEntries(p.quests, questOrder)))),
     EntryText("npc_dialogue_progress", Text(RecordTree(ProgressEntries(p.progress, progressOrder))))]
  }

  lemma StateTextsAreEntries(p: PlayerState, questOrder: seq<string>, progressOrder: seq<string>)
    ensures EntryTexts(StateEntries(p, questOrder, progressOrder)) == StateTexts(p, questOrder, progressOrder)
  {
    hide Text, EntryText, RawTree, IntTree, IntText, ListTree, RecordTree, EscapedPieces, Escape, Quote;
    EscapedIsQuoted(p.id);
    EscapedIsQuoted(p.race);
    EscapedIsQuoted(p.attributes);
    RawIsQuoted(p.room);
    RawIsQuoted(p.lastTarget);
    IntTreeReads(p.hp);
    IntTreeReads(p.maxHp);
  }

  /** The stream that `save` fills. */
  method Render(p: PlayerState) returns (text: string)
    ensures IsSavedText(text, p)
  {
    hide Text, EntryText, IntText, Joined, Escape, Quote, ListTree, RecordTree, IsOrderOf;
    var qs := KeysInOrder(p.quests.Keys);
    var ns := KeysInOrder(p.progress.Keys);
    var id := JsonEscape(p.id);
    var race := JsonEscape(p.race);
    var attributes := JsonEscape(p.attributes);
    var inventory := RenderInventory(p.inventory);
    var quests := RenderQuests(p.quests, qs);
    var progress := RenderProgress(p.progress, ns);
    text := "{" + EntryText("name", Quote(id)) + ("," + EntryText("race", Quote(race)))
      + ("," + EntryText("special_attributes", Quote(attributes)))
      + ("," + EntryText("current_room", Quote(p.room)))
      + ("," + EntryText("hp", IntText(p.hp))) + ("," + EntryText("max_hp", IntText(p.maxHp)))
      + ("," + EntryText("last_target", Quote(p.lastTarget)))
      + ("," + EntryText("inventory", inventory))
      + ("," + EntryText("quest_status", quests))
      + ("," + EntryText("npc_dialogue_progress", progress));
    ghost var texts := StateTexts(p, qs, ns);
    TenJoined(texts);
    StateTextsAreEntries(p, qs, ns);
    RecordTreeText(StateEntries(p, qs, ns));
    assert "{" + Joined(texts) + "}" == "{" + (Joined(texts) + "}");
    text := text + "}";
  }

  lemma TenJoined(t: seq<string>)
    requires |t| == 10
    ensures "{" + t[0] + ("," + t[1]) + ("," + t[2]) + ("," + t[3]) + ("," + t[4]) + ("," + t[5]) + ("," + t[6]) + ("," + t[7])
            + ("," + t[8]) + ("," + t[9]) == "{" + Joined(t)
  {
    hide Joined;
    JoinedEnds(t);
    JoinedPrefix(t, 1);
    JoinedPrefix(t, 2);
    JoinedPrefix(t, 3);
    JoinedPrefix(t, 4);
    JoinedPrefix(t, 5);
    JoinedPrefix(t, 6);
    JoinedPrefix(t, 7);
    JoinedPrefix(t, 8);
    JoinedPrefix(t, 9);
  }

  lemma JoinedEnds(t: seq<string>)
    requires t != []
    ensures Joined(t[..1]) == t[0] && t[..|t|] == t
  {
  }

  lemma JoinedPrefix(t: seq<string>, n: nat)
    requires 1 <= n < |t|
    ensures "{" + Joined(t[..n + 1]) == "{" + Joined(t[..n]) + ("," + t[n])
  {
    assert t[..n + 1] == t[..n] + [t[n]];
    JoinedSnoc(t[..n], t[n]);
  }

  // ---- what loading makes of a parsed file ---------------------------------------------------

  method ReadQuests(statuses: map<string, Json>) returns (quests: map<string, string>)
    ensures quests == map q | q in statuses :: AsString(statuses[q])
  {
    quests := map[];
    var rest := statuses.Keys;
    while rest != {}
      invariant rest <= statuses.Keys && quests.Keys == statuses.Keys - rest
      invariant forall q :: q in quests ==> quests[q] == AsString(statuses[q])
      decreases |rest|
    {
      var q :| q in rest;
      quests, rest := quests[q := AsString(statuses[q])], rest - {q};
    }
  }

  method ReadProgress(indices: map<string, Json>) returns (progress: map<string, nat>)
    ensures progress == map n | n in indices :: SizeT(AsInt(indices[n]))
  {
    progress := map[];
    var rest := indices.Keys;
    while rest != {}
      invariant rest <= indices.Keys && progress.Keys == indices.Keys - rest
      invariant forall n :: n in progress ==> progress[n] == SizeT(AsInt(indices[n]))
      decreases |rest|
    {
      var n :| n in rest;
      progress, rest := progress[n := SizeT(AsInt(indices[n]))], rest - {n};
    }
  }

  // ---- the store -----------------------------------------------------------------------------

  class Store {
    const directory: string
    var files: map<string, string>

    constructor (dir: string)
      ensures directory == dir && files == map[]
    {
      directory, files := dir, map[];
    }

    method Exists(name: string) returns (found: bool)
      ensures found <==> PathFor(directory, name) in files
    {
      found := PathFor(directory, name) in files;
    }

    method Load(name: string) returns (r: Option<PlayerState>)
      ensures r == if PathFor(directory, name) in files then LoadText(name, files[PathFor(directory, name)]) else None
    {
      var path := PathFor(directory, name);
      if path !in files { return None; }
      var parser := new Parser(files[path]);
      var parsed := parser.Parse();
      if parsed.Fail? { return None; }
      var root := parsed.value;
      var inventory := CollectTexts(ItemsOf(Field(root, "inventory")));
      var quests := ReadQuests(Fields(Field(root, "quest_status")));
      var progress := ReadProgress(Fields(Field(root, "npc_dialogue_progress")));
      r := Some(PlayerState(
        name, AsString(Field(root, "race")), AsString(Field(root, "special_attributes")), AsString(Field(root, "current_room")),
        inventory, AsInt(Field(root, "hp")), AsInt(Field(root, "max_hp")), AsString(Field(root, "last_target")), quests, progress));
    }

    /** The text goes to the temporary file, which then takes the place of the real one. */
    method Save(p: PlayerState)
      modifies this`files
      ensures
        var path := PathFor(directory, p.id);
        && path in files && IsSavedText(files[path], p)
        && files == old(files)[path := files[path]] - {TmpPathFor(directory, p.id)}
    {
      var text := Render(p);
      var path, tmp := PathFor(directory, p.id), TmpPathFor(directory, p.id);
      assert |tmp| != |path|;
      files := files[tmp := text];
      files := files[path := files[tmp]] - {tmp};
    }
  }
}
