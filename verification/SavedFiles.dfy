/** What a character file says, field by field. */
module SavedFiles {
  import opened Lists
  import opened WorldModel
  import opened Json
  import opened JsonGrammar
  import opened JsonSound
  import opened CharacterText
  import opened CharacterStore

  lemma IntTreeMeans(n: int)
    ensures Good(IntTree(n)) && Value(IntTree(n)) == Number(n as real)
  {
    var m := if n < 0 then -n else n;
    var ds := DigitsOf(m);
    DigitsOfNatural(m);
    assert Natural("") == 0;
    assert ds + ("" + "") == ds;
    assert Decimal(n < 0, ds, "", 0) == if n < 0 then -(m as real) else m as real;
  }

  predicate SaysStatuses(j: Json, quests: map<string, string>) {
    j.Object? && j.fields.Keys == quests.Keys && forall q :: q in quests ==> j.fields[q] == String(quests[q])
  }

  predicate SaysProgress(j: Json, progress: map<string, nat>) {
    j.Object? && j.fields.Keys == progress.Keys && forall n :: n in progress ==> j.fields[n] == Number(progress[n] as real)
  }

  lemma StatusesAreSaid(quests: map<string, string>, order: seq<string>)
    requires forall q :: q in quests ==> Clean(q) && Clean(quests[q])
    requires IsOrderOf(order, quests.Keys)
    ensures SaysStatuses(Value(RecordTree(QuestEntries(quests, order))), quests)
  {
    hide Good, Value, RecordTree, RawTree, Clean;
    var entries := QuestEntries(quests, order);
    forall i | 0 <= i < |entries| ensures Clean(entries[i].0) && Good(entries[i].1) && Value(entries[i].1) == String(quests[order[i]]) {
      RawReads(quests[order[i]]);
    }
    RecordReads(entries);
    var read := Value(RecordTree(entries));
    forall q ensures (q in Fields(read) <==> q in quests) && (q in quests ==> Fields(read)[q] == String(quests[q])) {
      EntryOfKey(entries, order, q);
      if q in quests {
        var i :| 0 <= i < |order| && order[i] == q;
        assert Field(read, entries[i].0) == Value(entries[i].1);
      }
    }
  }

  lemma ProgressIsSaid(progress: map<string, nat>, order: seq<string>)
    requires forall n :: n in progress ==> Clean(n)
    requires IsOrderOf(order, progress.Keys)
    ensures SaysProgress(Value(RecordTree(ProgressEntries(progress, order))), progress)
  {
    hide Good, Value, RecordTree, IntTree, Clean;
    var entries := ProgressEntries(progress, order);
    forall i | 0 <= i < |entries|
      ensures Clean(entries[i].0) && Good(entries[i].1) && Value(entries[i].1) == Number(progress[order[i]] as real)
    {
      IntTreeMeans(progress[order[i]]);
    }
    RecordReads(entries);
    var read := Value(RecordTree(entries));
    forall n ensures (n in Fields(read) <==> n in progress) && (n in progress ==> Fields(read)[n] == Number(progress[n] as real)) {
      EntryOfKey(entries, order, n);
      if n in progress {
        var i :| 0 <= i < |order| && order[i] == n;
        assert Field(read, entries[i].0) == Value(entries[i].1);
      }
    }
  }

  /** A saved file is an object with ten fields, and each says its part of the state. */
  lemma SavedFileMeans(p: PlayerState, questOrder: seq<string>, progressOrder: seq<string>)
    requires Savable(p) && IsOrderOf(questOrder, p.quests.Keys) && IsOrderOf(progressOrder, p.progress.Keys)
    ensures ParseJson(SavedText(p, questOrder, progressOrder)).Ok?
    ensures
      var root := ParseJson(SavedText(p, questOrder, progressOrder)).value;
      && root.Object?
      && Field(root, "name") == String(p.id)
      && Field(root, "race") == String(p.race)
      && Field(root, "special_attributes") == String(p.attributes)
      && Field(root, "current_room") == String(p.room)
      && Field(root, "hp") == Number(p.hp as real)
      && Field(root, "max_hp") == Number(p.maxHp as real)
      && Field(root, "last_target") == String(p.lastTarget)
      && Field(root, "inventory") == Array(seq(|p.inventory|, i requires 0 <= i < |p.inventory| => String(p.inventory[i])))
      && SaysStatuses(Field(root, "quest_status"), p.quests)
      && SaysProgress(Field(root, "npc_dialogue_progress"), p.progress)
  {
    hide Good, Value, Text, EscapedPieces, RawTree, IntTree, ListTree, RecordTree, IsOrderOf, ParseJson, DistinctKeys, GoodEntries,
         SaysStatuses, SaysProgress, Field, StateEntries;
    var entries := StateEntries(p, questOrder, progressOrder);
    var tree := RecordTree(entries);
    StateKeysDiffer(p, questOrder, progressOrder);
    EntriesAreGood(p, questOrder, progressOrder);
    RecordReads(entries);
    assert Text(tree) == "" + (Text(tree) + "");
    ReadsIsParsed(Text(tree), "", tree, "");
    FieldsAreSaid(p, questOrder, progressOrder, Value(tree));
  }

  lemma FieldsAreSaid(p: PlayerState, questOrder: seq<string>, progressOrder: seq<string>, root: Json)
    requires Savable(p) && IsOrderOf(questOrder, p.quests.Keys) && IsOrderOf(progressOrder, p.progress.Keys)
    requires
      var entries := StateEntries(p, questOrder, progressOrder);
      forall i {:trigger entries[i]} :: 0 <= i < |entries| ==> Field(root, entries[i].0) == Value(entries[i].1)
    ensures
      && Field(root, "name") == String(p.id)
      && Field(root, "race") == String(p.race)
      && Field(root, "special_attributes") == String(p.attributes)
      && Field(root, "current_room") == String(p.room)
      && Field(root, "hp") == Number(p.hp as real)
      && Field(root, "max_hp") == Number(p.maxHp as real)
      && Field(root, "last_target") == String(p.lastTarget)
      && Field(root, "inventory") == Array(seq(|p.inventory|, i requires 0 <= i < |p.inventory| => String(p.inventory[i])))
      && SaysStatuses(Field(root, "quest_status"), p.quests)
      && SaysProgress(Field(root, "npc_dialogue_progress"), p.progress)
  {
    hide Good, Value, EscapedPieces, RawTree, IntTree, ListTree, RecordTree, IsOrderOf, Clean, SaysStatuses, SaysProgress, Field;
    var entries := StateEntries(p, questOrder, progressOrder);
    assert |entries| == 10;
    assert entries[0].0 == "name" && entries[1].0 == "race" && entries[2].0 == "special_attributes" && entries[3].0 == "current_room"
        && entries[4].0 == "hp" && entries[5].0 == "max_hp" && entries[6].0 == "last_target" && entries[7].0 == "inventory"
        && entries[8].0 == "quest_status" && entries[9].0 == "npc_dialogue_progress";
    EscapedReads(p.id);
    EscapedReads(p.race);
    EscapedReads(p.attributes);
    RawReads(p.room);
    RawReads(p.lastTarget);
    IntTreeMeans(p.hp);
    IntTreeMeans(p.maxHp);
    InventoryReads(p.inventory);
    StatusesAreSaid(p.quests, questOrder);
    ProgressIsSaid(p.progress, progressOrder);
  }

  lemma {:induction false} Untouched(acc: map<string, Json>, entries: seq<(string, Tree)>, k: string)
    requires entries != [] && !HasKey(entries, k) && k in acc
    ensures k in Entered(acc, MembersOf(entries)) && Entered(acc, MembersOf(entries))[k] == acc[k]
    decreases |entries|
  {
    hide Value, RawPieces, PiecesValue;
    EntryIsText(entries[0].0, entries[0].1);
    KeysOfRest(entries, k);
    if |entries| > 1 {
      Untouched(acc[entries[0].0 := Value(entries[0].1)], entries[1..], k);
    }
  }

  lemma {:induction false} LastEntered(acc: map<string, Json>, entries: seq<(string, Tree)>, i: nat)
    requires i < |entries| && !HasKey(entries[i + 1..], entries[i].0)
    ensures
      var m, k := Entered(acc, MembersOf(entries)), entries[i].0;
      k in m && m[k] == Value(entries[i].1)
    decreases |entries|
  {
    hide Value, RawPieces, PiecesValue, HasKey;
    EntryIsText(entries[0].0, entries[0].1);
    if |entries| > 1 {
      var acc' := acc[entries[0].0 := Value(entries[0].1)];
      if i == 0 {
        Untouched(acc', entries[1..], entries[0].0);
      } else {
        assert entries[1..][i..] == entries[i + 1..];
        LastEntered(acc', entries[1..], i - 1);
      }
    }
  }

  /** Of members with the same key an object has the last. */
  lemma LastOfEqualKeys(entries: seq<(string, Tree)>, i: nat)
    requires GoodEntries(entries) && i < |entries| && !HasKey(entries[i + 1..], entries[i].0)
    ensures ParseJson("{" + (Joined(EntryTexts(entries)) + "}")).Ok?
    ensures Field(ParseJson("{" + (Joined(EntryTexts(entries)) + "}")).value, entries[i].0) == Value(entries[i].1)
  {
    hide Good, Value, Text, ParseJson, Joined, EntryTexts, HasKey, MembersOf, GoodEntries;
    RecordIsRead(entries);
    LastEntered(map[], entries, i);
  }

  lemma RecordIsRead(entries: seq<(string, Tree)>)
    requires GoodEntries(entries) && entries != []
    ensures ParseJson("{" + (Joined(EntryTexts(entries)) + "}")) == Ok(Object(Entered(map[], MembersOf(entries))))
  {
    hide ParseJson, Joined, EntryTexts, MembersOf, GoodEntries;
    var tree := RecordTree(entries);
    RecordTreeText(entries);
    MembersOfGood(entries);
    assert Text(tree) == "" + (Text(tree) + "");
    ReadsIsParsed(Text(tree), "", tree, "");
  }

  /** Fields that a file lacks load as empty texts, zeros and empty collections; the name is that of the file. */
  lemma EmptyFileLoads(name: string)
    ensures LoadText(name, "{}") == Some(PlayerState(name, "", "", "", [], 0, 0, "", map[], map[]))
  {
    hide ParseJson, Text, Value;
    EmptyObjectIsRead();
    var p := LoadedState(name, Object(map[]));
    assert TextsOf([]) == [];
    assert p.quests == map[] && p.progress == map[];
    assert LoadText(name, "{}") == Some(p);
  }

  lemma EmptyObjectIsRead()
    ensures ParseJson("{}") == Ok(Object(map[]))
  {
    hide ParseJson;
    var t := EmptyObject("");
    assert "" + (Text(t) + "") == "{}";
    ReadsIsParsed("{}", "", t, "");
  }

  /** The integer read from a number is the number without its fraction. */
  lemma AsIntMeans(x: real)
    ensures
      var n := AsInt(Number(x));
      if x >= 0.0 then n as real <= x < n as real + 1.0 else n as real - 1.0 < x <= n as real
  {
  }

  /** A progress that an `int` holds becomes a 64-bit size: itself, or, below zero, what it is short of 2^64. */
  lemma SizeTMeans(n: int)
    requires FitsInt(n)
    ensures 0 <= SizeT(n) < 0x1_0000_0000_0000_0000
    ensures SizeT(n) == n || (n < 0 && SizeT(n) - n == 0x1_0000_0000_0000_0000)
    ensures LoadedState("a", Object(map["npc_dialogue_progress" := Object(map["n" := Number(n as real)])])).progress == map["n" := SizeT(n)]
  {
    assert (-(n as real)) == (-n) as real;
  }
}
