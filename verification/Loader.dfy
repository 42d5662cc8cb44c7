/** The world loader: filling the world from a parsed file, and the checks that decide whether the
    server may start with it. */
module Loader {
  import opened Lists
  import opened WorldModel
  import opened WorldRules
  import opened Common
  import Json
  import opened LiveWorld

  type Object = map<string, Json.Json>

  // ---- entities from their objects -----------------------------------------------------------

  predicate IsEffect(s: string) {
    s == "" || s == "heal" || s == "damage"
  }

  function EffectOf(s: string): Effect {
    if s == "heal" then Heal else if s == "damage" then Damage else NoEffect
  }

  predicate IsQuestKind(s: string) {
    s == "fetch" || s == "defeat"
  }

  function KindOf(s: string): QuestKind {
    if s == "defeat" then Defeat else Fetch
  }

  function Str(j: Json.Json, key: string): string {
    Json.AsString(Json.Field(j, key))
  }

  function Strs(j: Json.Json, key: string): seq<string> {
    Json.TextsOf(Json.ItemsOf(Json.Field(j, key)))
  }

  function IntOr(j: Json.Json, key: string, default: int): int {
    if Json.Field(j, key).Null? then default else Json.AsInt(Json.Field(j, key))
  }

  function ItemFrom(id: string, j: Json.Json): Item {
    Item(id, Str(j, "name"), Str(j, "description"), EffectOf(Str(j, "effect")), Json.AsInt(Json.Field(j, "amount")))
  }

  function NpcFrom(id: string, j: Json.Json): Npc {
    var hp := Json.AsInt(Json.Field(j, "hp"));
    Npc(id, Str(j, "name"), Str(j, "description"), Strs(j, "dialogue"), hp, hp,
        IntOr(j, "counter_damage_min", 3), IntOr(j, "counter_damage_max", 8),
        Strs(j, "bonus_dialogue"), Strs(j, "unlock_quest_ids"))
  }

  function ExitsFrom(exits: Object): map<string, string> {
    map d | d in exits :: Json.AsString(exits[d])
  }

  function RoomFrom(id: string, j: Json.Json): Room {
    Room(id, Str(j, "name"), Str(j, "description"), ExitsFrom(Json.Fields(Json.Field(j, "exits"))), Strs(j, "items"), Strs(j, "npcs"))
  }

  function QuestFrom(id: string, j: Json.Json): Quest {
    var kind := KindOf(Str(j, "type"));
    Quest(id, Str(j, "name"), Str(j, "description"), kind,
          if kind.Fetch? then Str(j, "target_id") else "", if kind.Fetch? then [] else Strs(j, "target_ids"),
          Str(j, "reward_item_id"))
  }

  function Section(root: Json.Json, key: string): Object {
    Json.Fields(Json.Field(root, key))
  }

  function RoomsFrom(objects: Object): map<string, Room> { map r | r in objects :: RoomFrom(r, objects[r]) }

  function ItemsFrom(objects: Object): map<string, Item> { map i | i in objects :: ItemFrom(i, objects[i]) }

  function NpcsFrom(objects: Object): map<string, Npc> { map n | n in objects :: NpcFrom(n, objects[n]) }

  function QuestsFrom(objects: Object): map<string, Quest> { map q | q in objects :: QuestFrom(q, objects[q]) }

  /** `w` with the entities of the file in place of its own. */
  function Filled(w: World, root: Json.Json): World {
    w.(rooms := RoomsFrom(Section(root, "rooms")), items := ItemsFrom(Section(root, "items")),
       npcs := NpcsFrom(Section(root, "npcs")), quests := QuestsFrom(Section(root, "quests")))
  }

  predicate EffectsKnown(objects: Object) {
    forall i :: i in objects ==> IsEffect(Str(objects[i], "effect"))
  }

  predicate KindsKnown(objects: Object) {
    forall q :: q in objects ==> IsQuestKind(Str(objects[q], "type"))
  }

  /** What a world file must be for the server to start with it. */
  ghost predicate Loadable(w: World, text: string) {
    match Json.ParseJson(text)
    case Fail(_) => false
    case Ok(root) =>
      root.Object? && EffectsKnown(Section(root, "items")) && KindsKnown(Section(root, "quests")) && Checked(Filled(w, root))
  }

  // ---- filling -------------------------------------------------------------------------------

  method LoadItems(objects: Object) returns (ok: bool, items: map<string, Item>)
    ensures ok <==> EffectsKnown(objects)
    ensures ok ==> items == ItemsFrom(objects)
  {
    items := map[];
    var rest := objects.Keys;
    while rest != {}
      invariant rest <= objects.Keys && items.Keys == objects.Keys - rest
      invariant forall i :: i in items ==> items[i] == ItemFrom(i, objects[i]) && IsEffect(Str(objects[i], "effect"))
      decreases |rest|
    {
      var i :| i in rest;
      var effect := Str(objects[i], "effect");
      if effect != "" && effect != "heal" && effect != "damage" { return false, items; }
      items, rest := items[i := ItemFrom(i, objects[i])], rest - {i};
    }
    ok := true;
  }

  method LoadNpcs(objects: Object) returns (npcs: map<string, Npc>)
    ensures npcs == NpcsFrom(objects)
  {
    npcs := map[];
    var rest := objects.Keys;
    while rest != {}
      invariant rest <= objects.Keys && npcs.Keys == objects.Keys - rest
      invariant forall n :: n in npcs ==> npcs[n] == NpcFrom(n, objects[n])
      decreases |rest|
    {
      var n :| n in rest;
      var npc := LoadNpc(n, objects[n]);
      npcs, rest := npcs[n := npc], rest - {n};
    }
  }

  method LoadNpc(id: string, j: Json.Json) returns (npc: Npc)
    ensures npc == NpcFrom(id, j)
  {
    npc := Npc(id, Str(j, "name"), Str(j, "description"), [], 0, 0, 3, 8, [], []);
    var lines := Json.CollectTexts(Json.ItemsOf(Json.Field(j, "dialogue")));
    var bonus := Json.CollectTexts(Json.ItemsOf(Json.Field(j, "bonus_dialogue")));
    var unlocks := Json.CollectTexts(Json.ItemsOf(Json.Field(j, "unlock_quest_ids")));
    npc := npc.(dialogue := lines, bonusDialogue := bonus, unlockQuests := unlocks, hp := Json.AsInt(Json.Field(j, "hp")));
    npc := npc.(maxHp := npc.hp);
    if !Json.Field(j, "counter_damage_min").Null? {
      npc := npc.(counterMin := Json.AsInt(Json.Field(j, "counter_damage_min")));
    }
    if !Json.Field(j, "counter_damage_max").Null? {
      npc := npc.(counterMax := Json.AsInt(Json.Field(j, "counter_damage_max")));
    }
  }

  method LoadExits(objects: Object) returns (exits: map<string, string>)
    ensures exits == ExitsFrom(objects)
  {
    exits := map[];
    var rest := objects.Keys;
    while rest != {}
      invariant rest <= objects.Keys && exits.Keys == objects.Keys - rest
      invariant forall d :: d in exits ==> exits[d] == Json.AsString(objects[d])
      decreases |rest|
    {
      var d :| d in rest;
      exits, rest := exits[d := Json.AsString(objects[d])], rest - {d};
    }
  }

  method LoadRooms(objects: Object) returns (rooms: map<string, Room>)
    ensures rooms == RoomsFrom(objects)
  {
    rooms := map[];
    var rest := objects.Keys;
    while rest != {}
      invariant rest <= objects.Keys && rooms.Keys == objects.Keys - rest
      invariant forall r :: r in rooms ==> rooms[r] == RoomFrom(r, objects[r])
      decreases |rest|
    {
      var r :| r in rest;
      var j := objects[r];
      var exits := LoadExits(Json.Fields(Json.Field(j, "exits")));
      var items := Json.CollectTexts(Json.ItemsOf(Json.Field(j, "items")));
      var npcs := Json.CollectTexts(Json.ItemsOf(Json.Field(j, "npcs")));
      rooms, rest := rooms[r := Room(r, Str(j, "name"), Str(j, "description"), exits, items, npcs)], rest - {r};
    }
  }

  method LoadQuests(objects: Object) returns (ok: bool, quests: map<string, Quest>)
    ensures ok <==> KindsKnown(objects)
    ensures ok ==> quests == QuestsFrom(objects)
  {
    quests := map[];
    var rest := objects.Keys;
    while rest != {}
      invariant rest <= objects.Keys && quests.Keys == objects.Keys - rest
      invariant forall q :: q in quests ==> quests[q] == QuestFrom(q, objects[q]) && IsQuestKind(Str(objects[q], "type"))
      decreases |rest|
    {
      var q :| q in rest;
      var j := objects[q];
      if !IsQuestKind(Str(j, "type")) { return false, quests; }
      var quest := Quest(q, Str(j, "name"), Str(j, "description"), KindOf(Str(j, "type")), "", [], Str(j, "reward_item_id"));
      if quest.kind.Fetch? {
        quest := quest.(target := Str(j, "target_id"));
      } else {
        var targets := Json.CollectTexts(Json.ItemsOf(Json.Field(j, "target_ids")));
        quest := quest.(targets := targets);
      }
      quests, rest := quests[q := quest], rest - {q};
    }
    ok := true;
  }

  // ---- checking ------------------------------------------------------------------------------

  method AllIn(ids: seq<string>, known: set<string>) returns (ok: bool)
    ensures ok <==> forall i :: i in ids ==> i in known
  {
    for k := 0 to |ids|
      invariant forall i :: i in ids[..k] ==> i in known
    {
      if ids[k] !in known { return false; }
    }
    return true;
  }

  method ExitsOk(exits: map<string, string>, rooms: set<string>) returns (ok: bool)
    ensures ok <==> forall d :: d in exits ==> exits[d] in rooms
  {
    var rest := exits.Keys;
    while rest != {}
      invariant rest <= exits.Keys && forall d :: d in exits && d !in rest ==> exits[d] in rooms
      decreases |rest|
    {
      var d :| d in rest;
      if exits[d] !in rooms { return false; }
      rest := rest - {d};
    }
    return true;
  }

  /** The items of one room join those already placed; one that is unknown or placed before is an error. */
  method PlaceItems(ids: seq<string>, known: set<string>, placed: set<string>) returns (ok: bool, placed': set<string>)
    ensures ok <==> (forall i :: i in ids ==> i in known && i !in placed) && NoDuplicates(ids)
    ensures ok ==> placed' == placed + SetOf(ids)
  {
    placed' := placed;
    for k := 0 to |ids|
      invariant placed' == placed + SetOf(ids[..k])
      invariant (forall i :: i in ids[..k] ==> i in known && i !in placed) && NoDuplicates(ids[..k])
    {
      if ids[k] !in known { return false, placed'; }
      if ids[k] in placed' {
        assert ids[k] in ids;
        return false, placed';
      }
      AppendKeepsDistinct(ids[..k], ids[k]);
      assert ids[..k + 1] == ids[..k] + [ids[k]];
      placed' := placed' + {ids[k]};
    }
    assert ids[..|ids|] == ids;
    ok := true;
  }

  /** Room `r` refers to existing rooms, items and NPCs only. */
  ghost predicate RoomRefers(w: World, r: string)
    requires r in w.rooms
  {
    && (forall d :: d in w.rooms[r].exits ==> w.rooms[r].exits[d] in w.rooms)
    && (forall i :: i in w.rooms[r].items ==> i in w.items)
    && (forall n :: n in w.rooms[r].npcs ==> n in w.npcs)
  }

  ghost predicate RoomsRefer(w: World) {
    forall r :: r in w.rooms ==> RoomRefers(w, r)
  }

  lemma RoomsReferMeans(w: World)
    ensures RoomsRefer(w) <==> ExitsLead(w) && ItemsKnown(w) && NpcsKnown(w)
  {
    if ExitsLead(w) && ItemsKnown(w) && NpcsKnown(w) {
      forall r | r in w.rooms ensures RoomRefers(w, r) {
      }
    }
    if RoomsRefer(w) {
      forall r, d | r in w.rooms && d in w.rooms[r].exits ensures w.rooms[r].exits[d] in w.rooms { assert RoomRefers(w, r); }
      forall r, i | r in w.rooms && i in w.rooms[r].items ensures i in w.items { assert RoomRefers(w, r); }
      forall r, n | r in w.rooms && n in w.rooms[r].npcs ensures n in w.npcs { assert RoomRefers(w, r); }
    }
  }

  /** What the accumulated set knows about the rooms checked so far. */
  ghost predicate PlacedSoFar(w: World, checked: seq<string>, placed: set<string>)
    requires forall r :: r in checked ==> r in w.rooms
  {
    && (forall r :: r in checked ==> NoDuplicates(w.rooms[r].items))
    && (forall r, i {:trigger i in w.rooms[r].items} :: r in checked && i in w.rooms[r].items ==> i in placed)
    && (forall i :: i in placed ==> exists r :: r in checked && i in w.rooms[r].items)
    && (forall r1, r2, i {:trigger i in w.rooms[r1].items, i in w.rooms[r2].items} ::
          r1 in checked && r2 in checked && i in w.rooms[r1].items && i in w.rooms[r2].items ==> r1 == r2)
  }

  lemma OneMorePlaced(w: World, checked: seq<string>, placed: set<string>, r: string)
    requires (forall x :: x in checked ==> x in w.rooms) && r in w.rooms && r !in checked && PlacedSoFar(w, checked, placed)
    requires NoDuplicates(w.rooms[r].items) && forall i :: i in w.rooms[r].items ==> i !in placed
    ensures PlacedSoFar(w, checked + [r], placed + SetOf(w.rooms[r].items))
  {
    hide NoDuplicates;
    var checked', placed' := checked + [r], placed + SetOf(w.rooms[r].items);
    forall i | i in placed' ensures exists x :: x in checked' && i in w.rooms[x].items {
      if i in placed {
        var x :| x in checked && i in w.rooms[x].items;
        assert x in checked';
      } else {
        assert r in checked';
      }
    }
  }

  /** An item that is placed already is placed twice. */
  lemma TwiceIsNotUnique(w: World, checked: seq<string>, placed: set<string>, r: string)
    requires (forall x :: x in checked ==> x in w.rooms) && r in w.rooms && r !in checked && PlacedSoFar(w, checked, placed)
    requires !NoDuplicates(w.rooms[r].items) || exists i :: i in w.rooms[r].items && i in placed
    ensures !ItemsUnique(w)
  {
    hide NoDuplicates;
    if i :| i in w.rooms[r].items && i in placed {
      var x :| x in checked && i in w.rooms[x].items;
      assert x != r;
    }
  }

  /** The first validation loop: exits, items with their uniqueness, and NPCs of every room. */
  method CheckRooms(w: World) returns (ok: bool)
    ensures ok <==> ExitsLead(w) && ItemsKnown(w) && ItemsUnique(w) && NpcsKnown(w)
  {
    hide ExitsLead, ItemsKnown, NpcsKnown, ItemsUnique, PlacedSoFar, NoDuplicates, SetOf;
    RoomsReferMeans(w);
    var order := KeysInOrder(w.rooms.Keys);
    NothingPlaced(w);
    var placed: set<string> := {};
    for k := 0 to |order|
      invariant forall r :: r in order[..k] ==> r in w.rooms && RoomRefers(w, r)
      invariant PlacedSoFar(w, order[..k], placed)
    {
      var r := order[k];
      var exitsOk := ExitsOk(w.rooms[r].exits, w.rooms.Keys);
      if !exitsOk { return false; }
      var itemsOk, placed' := PlaceItems(w.rooms[r].items, w.items.Keys, placed);
      if !itemsOk {
        if forall i :: i in w.rooms[r].items ==> i in w.items {
          NewInOrder(order, w.rooms.Keys, k);
          TwiceIsNotUnique(w, order[..k], placed, r);
        }
        return false;
      }
      var npcsOk := AllIn(w.rooms[r].npcs, w.npcs.Keys);
      if !npcsOk { return false; }
      NewInOrder(order, w.rooms.Keys, k);
      OneMorePlaced(w, order[..k], placed, r);
      assert order[..k + 1] == order[..k] + [r];
      placed := placed';
    }
    assert order[..|order|] == order;
    AllPlacedUnique(w, order, placed);
    ok := true;
  }

  lemma NothingPlaced(w: World)
    ensures PlacedSoFar(w, [], {})
  {
  }

  lemma NewInOrder(order: seq<string>, keys: set<string>, k: nat)
    requires IsOrderOf(order, keys) && k < |order|
    ensures order[k] in keys && order[k] !in order[..k]
  {
  }

  lemma AllPlacedUnique(w: World, order: seq<string>, placed: set<string>)
    requires IsOrderOf(order, w.rooms.Keys) && PlacedSoFar(w, order, placed)
    ensures ItemsUnique(w)
  {
    hide NoDuplicates;
  }

  predicate QuestRefers(w: World, quest: Quest) {
    && (quest.kind.Fetch? ==> quest.target in w.items)
    && (quest.kind.Defeat? ==> quest.targets != [] && forall n :: n in quest.targets ==> n in w.npcs)
    && (quest.reward != "" ==> quest.reward in w.items)
  }

  lemma QuestsReferMeans(w: World)
    ensures QuestsKnown(w) <==> forall q :: q in w.quests ==> QuestRefers(w, w.quests[q])
  {
  }

  /** The second validation loop: what the quests refer to. */
  method CheckQuests(w: World) returns (ok: bool)
    ensures ok <==> QuestsKnown(w)
  {
    QuestsReferMeans(w);
    var order := KeysInOrder(w.quests.Keys);
    for k := 0 to |order|
      invariant forall q :: q in order[..k] ==> q in w.quests && QuestRefers(w, w.quests[q])
    {
      var quest := w.quests[order[k]];
      if quest.kind.Fetch? {
        if quest.target !in w.items { return false; }
      } else {
        if quest.targets == [] { return false; }
        var targetsOk := AllIn(quest.targets, w.npcs.Keys);
        if !targetsOk { return false; }
      }
      if quest.reward != "" && quest.reward !in w.items { return false; }
    }
    ok := true;
  }

  /** The third validation loop: the quests that unlock an NPC's bonus lines. */
  method CheckUnlocks(w: World) returns (ok: bool)
    ensures ok <==> UnlocksKnown(w)
  {
    var order := KeysInOrder(w.npcs.Keys);
    for k := 0 to |order|
      invariant forall n, q :: n in order[..k] && n in w.npcs && q in w.npcs[n].unlockQuests ==> q in w.quests
    {
      var unlocksOk := AllIn(w.npcs[order[k]].unlockQuests, w.quests.Keys);
      if !unlocksOk { return false; }
    }
    ok := true;
  }

  // ---- load_world ----------------------------------------------------------------------------

  /** The filling part: the old entities are cleared, the new ones entered until an unknown effect or kind. */
  method Fill(world: SharedWorld, root: Json.Json) returns (ok: bool)
    modifies world`rooms, world`items, world`npcs, world`quests
    ensures ok <==> EffectsKnown(Section(root, "items")) && KindsKnown(Section(root, "quests"))
    ensures ok ==> world.View() == Filled(old(world.View()), root)
  {
    hide EffectsKnown, KindsKnown, ItemsFrom, NpcsFrom, RoomsFrom, QuestsFrom, Section;
    world.rooms, world.items, world.npcs, world.quests := map[], map[], map[], map[];
    var itemsOk, items := LoadItems(Section(root, "items"));
    if !itemsOk { return false; }
    world.items := items;
    var npcs := LoadNpcs(Section(root, "npcs"));
    world.npcs := npcs;
    var rooms := LoadRooms(Section(root, "rooms"));
    world.rooms := rooms;
    var questsOk, quests := LoadQuests(Section(root, "quests"));
    if !questsOk { return false; }
    world.quests := quests;
    ok := true;
  }

  /** `load_world` on the contents of the world file: it succeeds exactly on loadable files, and then the
      world holds the entities of the file, players and groups untouched. */
  method LoadWorld(world: SharedWorld, text: string) returns (ok: bool)
    modifies world`rooms, world`items, world`npcs, world`quests
    ensures ok <==> Loadable(old(world.View()), text)
    ensures ok ==> world.View() == Filled(old(world.View()), Json.ParseJson(text).value)
  {
    hide EffectsKnown, KindsKnown, Checked, Filled, Section;
    var parser := new Json.Parser(text);
    var parsed := parser.Parse();
    if parsed.Fail? || !parsed.value.Object? { return false; }
    ok := Fill(world, parsed.value);
    if !ok { return; }
    ok := Validate(world);
  }

  method Validate(world: SharedWorld) returns (ok: bool)
    ensures ok <==> Checked(world.View())
  {
    var w := World(world.rooms, world.items, world.npcs, map[], world.quests, map[], map[], multiset{});
    CheckedByEntities(w, world.View());
    ok := CheckRooms(w);
    if !ok { return; }
    ok := CheckQuests(w);
    if !ok { return; }
    ok := CheckUnlocks(w);
    if !ok { return; }
    ok := START_ROOM in world.rooms;
  }

  lemma CheckedByEntities(w: World, w': World)
    requires w.rooms == w'.rooms && w.items == w'.items && w.npcs == w'.npcs && w.quests == w'.quests
    ensures Checked(w) <==> Checked(w')
  {
    hide NoDuplicates;
  }

  // ---- a loaded world is a world to run ------------------------------------------------------

  function EmptyWorld(): World {
    World(map[], map[], map[], map[], map[], map[], map[], multiset{})
  }

  lemma FilledIsFresh(root: Json.Json)
    ensures Fresh(Filled(EmptyWorld(), root))
  {
  }
}
