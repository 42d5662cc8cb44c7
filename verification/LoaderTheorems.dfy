/** The loader's checks are strong enough for the handlers. */
module LoaderTheorems {
  import opened WorldModel
  import opened WorldRules
  import opened Server
  import opened Invariants
  import opened Lookups
  import Json
  import opened Loader

  function WorldOf(text: string): World
    requires Loadable(EmptyWorld(), text)
  {
    Filled(EmptyWorld(), Json.ParseJson(text).value)
  }

  /** Whatever file `load_world` accepts: no lookup of any handler ever fails, in any run, and every live
      session knows the room its player is in. */
  lemma AcceptedWorldsNeverThrow(text: string, run: seq<Action>, sid: nat)
    requires Loadable(EmptyWorld(), text) && CanRun(Start(WorldOf(text)), run)
    ensures
      var s := Exec(Start(WorldOf(text)), run);
      && !s.threw
      && (sid in s.sessions && Live(s.sessions[sid]) ==>
            var p := s.sessions[sid].player;
            && p in s.world.players && s.sessions[sid].room == s.world.players[p].room && s.world.players[p].room in s.world.rooms)
  {
    hide Checked, Fresh, Filled, Start, CanRun, Exec;
    FilledIsFresh(Json.ParseJson(text).value);
    Lookups.LookupsNeverFail(WorldOf(text), run, sid);
  }

  /** An accepted file that also meets the assumptions is a world every theorem about runs is for. */
  lemma AcceptedWorldsAreLoaded(text: string)
    requires Loadable(EmptyWorld(), text) && Assumed(WorldOf(text))
    ensures Loaded(WorldOf(text))
  {
    hide Checked, Fresh, Filled, Assumed;
    FilledIsFresh(Json.ParseJson(text).value);
  }

  const CAVE: string := "loc.cave"

  function SmallRooms(): map<string, Room> {
    map[START_ROOM := Room(START_ROOM, "", "", map["north" := CAVE], ["key"], []),
        CAVE := Room(CAVE, "", "", map["south" := START_ROOM], [], ["rat"])]
  }

  /** A world of two rooms: a key lies in the first, a rat stands in the second, and there is a quest to kill it. */
  function SmallWorld(): World {
    EmptyWorld().(
      rooms := SmallRooms(),
      items := map["key" := Item("key", "Key", "", NoEffect, 0)],
      npcs := map["rat" := Npc("rat", "Rat", "", ["Squeak."], 20, 20, 3, 8, [], [])],
      quests := map["hunt" := Quest("hunt", "Hunt", "", Defeat, "", ["rat"], "")])
  }

  lemma SmallRoomsAre()
    ensures SmallRooms().Keys == {START_ROOM, CAVE} && START_ROOM != CAVE
    ensures SmallRooms()[START_ROOM] == Room(START_ROOM, "", "", map["north" := CAVE], ["key"], [])
    ensures SmallRooms()[CAVE] == Room(CAVE, "", "", map["south" := START_ROOM], [], ["rat"])
  {
    assert CAVE[4] != START_ROOM[4];
  }

  lemma SmallRoomsRefer()
    ensures ExitsLead(SmallWorld()) && ItemsKnown(SmallWorld()) && NpcsKnown(SmallWorld())
  {
    hide SmallRooms;
    SmallRoomsAre();
  }

  lemma SmallRoomsShareNothing()
    ensures ItemsUnique(SmallWorld())
  {
    hide SmallRooms;
    SmallRoomsAre();
  }

  lemma SmallEntities()
    ensures QuestsKnown(SmallWorld()) && UnlocksKnown(SmallWorld())
    ensures NoRewards(SmallWorld()) && AmountsSane(SmallWorld())
  {
    hide SmallRooms;
  }

  lemma SmallWorldIsFresh()
    ensures Fresh(SmallWorld()) && START_ROOM in SmallWorld().rooms
  {
    hide SmallRooms;
    SmallRoomsAre();
  }

  lemma SmallNpcs()
    ensures NpcsSane(SmallWorld())
  {
    hide SmallRooms;
    SmallRoomsAre();
  }

  /** The hypotheses of the run theorems are met by a world with an item, a living NPC and a defeat quest. */
  lemma SmallWorldIsLoaded()
    ensures Loaded(SmallWorld())
  {
    hide SmallWorld, ExitsLead, ItemsKnown, ItemsUnique, NpcsKnown, QuestsKnown, UnlocksKnown, Fresh, NoRewards, NpcsSane, AmountsSane;
    SmallRoomsRefer();
    SmallRoomsShareNothing();
    SmallEntities();
    SmallWorldIsFresh();
    SmallNpcs();
  }
}
