/** World files as the loader reads them: every world can be written down, field by field, and is read back. */
module WorldFiles {
  import opened WorldModel
  import Json
  import opened Loader

  function TextJson(s: string): Json.Json { Json.String(s) }

  function TextsJson(ss: seq<string>): Json.Json {
    Json.Array(seq(|ss|, i requires 0 <= i < |ss| => Json.String(ss[i])))
  }

  function IntJson(i: int): Json.Json { Json.Number(i as real) }

  lemma TextsReadBack(j: Json.Json, key: string, ss: seq<string>)
    requires Json.Field(j, key) == TextsJson(ss)
    ensures Strs(j, key) == ss
  {
    assert |Strs(j, key)| == |ss|;
  }

  lemma IntReadsBack(i: int)
    ensures Json.AsInt(IntJson(i)) == i
  {
    assert -((-(i as real)).Floor) == i by {
      assert -(i as real) == (-i) as real;
    }
  }

  // ---- one entity ----------------------------------------------------------------------------

  /** An NPC with or without its own bounds for counter-blows. */
  function NpcJson(n: Npc, low: bool, high: bool): Json.Json {
    var fields := map[
      "name" := TextJson(n.name), "description" := TextJson(n.description), "dialogue" := TextsJson(n.dialogue),
      "hp" := IntJson(n.hp), "bonus_dialogue" := TextsJson(n.bonusDialogue), "unlock_quest_ids" := TextsJson(n.unlockQuests)];
    var lower := if low then fields["counter_damage_min" := IntJson(n.counterMin)] else fields;
    Json.Object(if high then lower["counter_damage_max" := IntJson(n.counterMax)] else lower)
  }

  /** An NPC is loaded in full health, with the bounds of its object, or 3 and 8 where there are none. */
  lemma NpcReadsBack(n: Npc, low: bool, high: bool)
    ensures
      NpcFrom(n.id, NpcJson(n, low, high)) ==
        n.(maxHp := n.hp, counterMin := if low then n.counterMin else 3, counterMax := if high then n.counterMax else 8)
  {
    hide Strs, Json.AsInt, TextsJson;
    var j := NpcJson(n, low, high);
    TextsReadBack(j, "dialogue", n.dialogue);
    TextsReadBack(j, "bonus_dialogue", n.bonusDialogue);
    TextsReadBack(j, "unlock_quest_ids", n.unlockQuests);
    IntReadsBack(n.hp);
    IntReadsBack(n.counterMin);
    IntReadsBack(n.counterMax);
  }

  function EffectName(e: Effect): string {
    match e
    case NoEffect => ""
    case Heal => "heal"
    case Damage => "damage"
  }

  function ItemJson(i: Item): Json.Json {
    Json.Object(map[
      "name" := TextJson(i.name), "description" := TextJson(i.description),
      "effect" := TextJson(EffectName(i.effect)), "amount" := IntJson(i.amount)])
  }

  lemma ItemReadsBack(i: Item)
    ensures ItemFrom(i.id, ItemJson(i)) == i && IsEffect(Str(ItemJson(i), "effect"))
  {
    hide Json.AsInt, IntJson;
    IntReadsBack(i.amount);
    assert "heal" != "damage" by { assert "heal"[0] != "damage"[0]; }
  }

  function RoomJson(r: Room): Json.Json {
    Json.Object(map[
      "name" := TextJson(r.name), "description" := TextJson(r.description),
      "exits" := Json.Object(map d | d in r.exits :: TextJson(r.exits[d])),
      "items" := TextsJson(r.items), "npcs" := TextsJson(r.npcs)])
  }

  lemma RoomReadsBack(r: Room)
    ensures RoomFrom(r.id, RoomJson(r)) == r
  {
    hide Strs, TextsJson;
    var j := RoomJson(r);
    TextsReadBack(j, "items", r.items);
    TextsReadBack(j, "npcs", r.npcs);
    assert ExitsFrom(Json.Fields(Json.Field(j, "exits"))) == r.exits;
  }

  function KindName(k: QuestKind): string {
    if k.Fetch? then "fetch" else "defeat"
  }

  function QuestJson(q: Quest): Json.Json {
    Json.Object(map[
      "name" := TextJson(q.name), "description" := TextJson(q.description), "type" := TextJson(KindName(q.kind)),
      "target_id" := TextJson(q.target), "target_ids" := TextsJson(q.targets), "reward_item_id" := TextJson(q.reward)])
  }

  lemma QuestReadsBack(q: Quest)
    requires if q.kind.Fetch? then q.targets == [] else q.target == ""
    ensures QuestFrom(q.id, QuestJson(q)) == q && IsQuestKind(Str(QuestJson(q), "type"))
  {
    hide Strs, TextsJson;
    TextsReadBack(QuestJson(q), "target_ids", q.targets);
    assert "fetch" != "defeat" by { assert "fetch"[0] != "defeat"[0]; }
  }

  /** An object without fields is an entity without texts, numbers and lists. */
  lemma EmptyEntities(id: string)
    ensures
      var none := Json.Object(map[]);
      && ItemFrom(id, none) == Item(id, "", "", NoEffect, 0)
      && NpcFrom(id, none) == Npc(id, "", "", [], 0, 0, 3, 8, [], [])
      && RoomFrom(id, none) == Room(id, "", "", map[], [], [])
      && !KindsKnown(map[id := none])
  {
    assert Strs(Json.Object(map[]), "dialogue") == Strs(Json.Object(map[]), "bonus_dialogue") == Strs(Json.Object(map[]), "unlock_quest_ids")
        == Strs(Json.Object(map[]), "items") == Strs(Json.Object(map[]), "npcs") == [];
    assert ExitsFrom(map[]) == map[];
    assert Str(map[id := Json.Object(map[])][id], "type") == "";
  }

  /** The words for effects and kinds that a world file may use are those that are written. */
  lemma WordsAreKnown(s: string)
    ensures IsEffect(s) <==> exists e :: s == EffectName(e)
    ensures IsQuestKind(s) <==> exists k :: s == KindName(k)
  {
    assert EffectName(NoEffect) == "" && EffectName(Heal) == "heal" && EffectName(Damage) == "damage";
    assert KindName(Fetch) == "fetch" && KindName(Defeat) == "defeat";
  }

  // ---- a whole world -------------------------------------------------------------------------

  function ItemObjects(items: map<string, Item>): Object { map i | i in items :: ItemJson(items[i]) }

  function NpcObjects(npcs: map<string, Npc>): Object { map n | n in npcs :: NpcJson(npcs[n], true, true) }

  function RoomObjects(rooms: map<string, Room>): Object { map r | r in rooms :: RoomJson(rooms[r]) }

  function QuestObjects(quests: map<string, Quest>): Object { map q | q in quests :: QuestJson(quests[q]) }

  function WorldJson(w: World): Json.Json {
    Json.Object(map[
      "items" := Json.Object(ItemObjects(w.items)), "npcs" := Json.Object(NpcObjects(w.npcs)),
      "rooms" := Json.Object(RoomObjects(w.rooms)), "quests" := Json.Object(QuestObjects(w.quests))])
  }

  lemma SectionsAre(w: World)
    ensures Section(WorldJson(w), "items") == ItemObjects(w.items) && Section(WorldJson(w), "npcs") == NpcObjects(w.npcs)
    ensures Section(WorldJson(w), "rooms") == RoomObjects(w.rooms) && Section(WorldJson(w), "quests") == QuestObjects(w.quests)
  {
    hide ItemObjects, NpcObjects, RoomObjects, QuestObjects;
  }

  /** Ids are keys, NPCs are in full health, and quests have the fields of their kind. */
  ghost predicate Writable(w: World) {
    && (forall i :: i in w.items ==> w.items[i].id == i)
    && (forall n :: n in w.npcs ==> w.npcs[n].id == n && w.npcs[n].maxHp == w.npcs[n].hp)
    && (forall r :: r in w.rooms ==> w.rooms[r].id == r)
    && (forall q :: q in w.quests ==> w.quests[q].id == q && if w.quests[q].kind.Fetch? then w.quests[q].targets == [] else w.quests[q].target == "")
  }

  lemma ItemsReadBack(w: World)
    requires Writable(w)
    ensures EffectsKnown(ItemObjects(w.items)) && ItemsFrom(ItemObjects(w.items)) == w.items
  {
    hide ItemFrom, ItemJson, IsEffect, Str;
    forall i | i in w.items ensures ItemFrom(i, ItemJson(w.items[i])) == w.items[i] && IsEffect(Str(ItemJson(w.items[i]), "effect")) {
      ItemReadsBack(w.items[i]);
    }
  }

  lemma NpcsReadBack(w: World)
    requires Writable(w)
    ensures NpcsFrom(NpcObjects(w.npcs)) == w.npcs
  {
    hide NpcFrom, NpcJson;
    forall n | n in w.npcs ensures NpcFrom(n, NpcJson(w.npcs[n], true, true)) == w.npcs[n] {
      NpcReadsBack(w.npcs[n], true, true);
    }
  }

  lemma RoomsReadBack(w: World)
    requires Writable(w)
    ensures RoomsFrom(RoomObjects(w.rooms)) == w.rooms
  {
    hide RoomFrom, RoomJson;
    forall r | r in w.rooms ensures RoomFrom(r, RoomJson(w.rooms[r])) == w.rooms[r] {
      RoomReadsBack(w.rooms[r]);
    }
  }

  lemma QuestsReadBack(w: World)
    requires Writable(w)
    ensures KindsKnown(QuestObjects(w.quests)) && QuestsFrom(QuestObjects(w.quests)) == w.quests
  {
    hide QuestFrom, QuestJson, IsQuestKind, Str;
    forall q | q in w.quests
      ensures QuestFrom(q, QuestJson(w.quests[q])) == w.quests[q] && IsQuestKind(Str(QuestJson(w.quests[q]), "type"))
    {
      QuestReadsBack(w.quests[q]);
    }
  }

  /** What is written of a world is what the loader fills in, whatever was there before. */
  lemma WorldReadsBack(w: World, before: World)
    requires Writable(w)
    ensures
      var root := WorldJson(w);
      && EffectsKnown(Section(root, "items")) && KindsKnown(Section(root, "quests"))
      && Filled(before, root) == before.(rooms := w.rooms, items := w.items, npcs := w.npcs, quests := w.quests)
  {
    hide WorldJson, Section, ItemsFrom, NpcsFrom, RoomsFrom, QuestsFrom, EffectsKnown, KindsKnown, Writable;
    SectionsAre(w);
    ItemsReadBack(w);
    NpcsReadBack(w);
    RoomsReadBack(w);
    QuestsReadBack(w);
  }
}
