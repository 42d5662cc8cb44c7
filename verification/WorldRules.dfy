/** What a loaded world guarantees, what stays true of it, and what the handlers of one player
    may do to it. */
module WorldRules {
  import opened Tokens
  import opened Lists
  import opened WorldModel
  import opened Sections

  // ---- the world as loaded -----------------------------------------------------------------

  ghost predicate ExitsLead(w: World) {
    forall r, d {:trigger d in w.rooms[r].exits} :: r in w.rooms && d in w.rooms[r].exits ==> w.rooms[r].exits[d] in w.rooms
  }

  ghost predicate ItemsKnown(w: World) {
    forall r, i {:trigger i in w.rooms[r].items} :: r in w.rooms && i in w.rooms[r].items ==> i in w.items
  }

  /** No item id is placed twice, in one room or in two. */
  ghost predicate ItemsUnique(w: World) {
    && (forall r :: r in w.rooms ==> NoDuplicates(w.rooms[r].items))
    && (forall r1, r2, i :: r1 in w.rooms && r2 in w.rooms && i in w.rooms[r1].items && i in w.rooms[r2].items ==> r1 == r2)
  }

  ghost predicate NpcsKnown(w: World) {
    forall r, n {:trigger n in w.rooms[r].npcs} :: r in w.rooms && n in w.rooms[r].npcs ==> n in w.npcs
  }

  ghost predicate QuestsKnown(w: World) {
    && (forall q :: q in w.quests && w.quests[q].kind.Fetch? ==> w.quests[q].target in w.items)
    && (forall q :: q in w.quests && w.quests[q].kind.Defeat? ==> w.quests[q].targets != [])
    && (forall q, n :: q in w.quests && w.quests[q].kind.Defeat? && n in w.quests[q].targets ==> n in w.npcs)
    && (forall q :: q in w.quests && w.quests[q].reward != "" ==> w.quests[q].reward in w.items)
  }

  ghost predicate UnlocksKnown(w: World) {
    forall n, q :: n in w.npcs && q in w.npcs[n].unlockQuests ==> q in w.quests
  }

  /** The referential checks of the loader. */
  ghost predicate Checked(w: World) {
    && ExitsLead(w) && ItemsKnown(w) && ItemsUnique(w) && NpcsKnown(w) && QuestsKnown(w) && UnlocksKnown(w)
    && START_ROOM in w.rooms
  }

  /** How the loader fills in the entities. */
  ghost predicate Fresh(w: World) {
    && (forall r :: r in w.rooms ==> w.rooms[r].id == r)
    && (forall n :: n in w.npcs ==> w.npcs[n].hp == w.npcs[n].maxHp)
    && w.players == map[] && w.playerGroup == map[] && w.groups == map[] && w.invites == multiset{}
  }

  ghost predicate NoRewards(w: World) {
    forall q :: q in w.quests ==> w.quests[q].reward == ""
  }

  /** NPCs start alive, their counter range is a range, and none stands in two rooms. */
  ghost predicate NpcsSane(w: World) {
    && (forall n :: n in w.npcs ==> w.npcs[n].hp > 0)
    && (forall n :: n in w.npcs ==> 0 <= w.npcs[n].counterMin <= w.npcs[n].counterMax)
    && (forall r1, r2, n :: r1 in w.rooms && r2 in w.rooms && n in w.rooms[r1].npcs && n in w.rooms[r2].npcs ==> r1 == r2)
  }

  ghost predicate AmountsSane(w: World) {
    forall i :: i in w.items ==> w.items[i].amount >= 0
  }

  /** What the model assumes of a world file beyond the loader's checks. */
  ghost predicate Assumed(w: World) {
    NoRewards(w) && NpcsSane(w) && AmountsSane(w)
  }

  ghost predicate Loaded(w: World) {
    Checked(w) && Fresh(w) && Assumed(w)
  }

  // ---- where players can walk --------------------------------------------------------------

  /** The directions of `walk`, each a word a player can type, lead from one room to another. */
  ghost predicate Leads(w: World, from: string, walk: seq<string>, to: string)
    decreases |walk|
  {
    if walk == [] then from == to
    else
      && IsToken(walk[0]) && from in w.rooms && walk[0] in w.rooms[from].exits
      && Leads(w, w.rooms[from].exits[walk[0]], walk[1..], to)
  }

  ghost predicate Reached(w: World, r: string) {
    exists walk :: Leads(w, START_ROOM, walk, r)
  }

  lemma {:induction false} LeadsFurther(w: World, from: string, walk: seq<string>, here: string, d: string)
    requires Leads(w, from, walk, here) && IsToken(d) && here in w.rooms && d in w.rooms[here].exits
    ensures Leads(w, from, walk + [d], w.rooms[here].exits[d])
    decreases |walk|
  {
    if walk == [] {
      assert Leads(w, w.rooms[here].exits[d], [], w.rooms[here].exits[d]);
      assert ([d])[1..] == [];
    } else {
      LeadsFurther(w, w.rooms[from].exits[walk[0]], walk[1..], here, d);
      assert (walk + [d])[1..] == walk[1..] + [d];
    }
  }

  lemma ReachedNext(w: World, here: string, d: string)
    requires Reached(w, here) && IsToken(d) && here in w.rooms && d in w.rooms[here].exits
    ensures Reached(w, w.rooms[here].exits[d])
  {
    var walk :| Leads(w, START_ROOM, walk, here);
    LeadsFurther(w, START_ROOM, walk, here, d);
  }

  lemma StartIsReached(w: World)
    ensures Reached(w, START_ROOM)
  {
    assert Leads(w, START_ROOM, [], START_ROOM);
  }

  /** A target of the quest stands in a room with an empty id that players can walk to. */
  ghost predicate StandsNowhere(w: World, quest: Quest) {
    Reached(w, "") && "" in w.rooms && exists n :: n in quest.targets && n in w.rooms[""].npcs
  }

  // ---- what stays true of the world --------------------------------------------------------

  /** Exits and ids of rooms never change, nor does anything about an NPC but its hp. */
  ghost predicate SameMap(base: World, rooms: map<string, Room>, npcs: map<string, Npc>) {
    && rooms.Keys == base.rooms.Keys
    && npcs.Keys == base.npcs.Keys
    && (forall r {:trigger rooms[r]} :: r in rooms ==> rooms[r].exits == base.rooms[r].exits && rooms[r].id == base.rooms[r].id)
    && (forall n {:trigger npcs[n]} :: n in npcs ==> npcs[n] == base.npcs[n].(hp := npcs[n].hp))
  }

  ghost predicate RoomItemsKnown(base: World, rooms: map<string, Room>) {
    forall r, i {:trigger i in rooms[r].items} :: r in rooms && i in rooms[r].items ==> i in base.items
  }

  predicate Alive(npcs: map<string, Npc>, n: string) {
    n in npcs && npcs[n].hp > 0
  }

  /** NPC hp stays within [0, max], and an NPC is in its room exactly while its hp is positive. */
  ghost predicate NpcLife(base: World, rooms: map<string, Room>, npcs: map<string, Npc>)
    requires SameMap(base, rooms, npcs)
  {
    && (forall n {:trigger npcs[n]} :: n in npcs ==> 0 <= npcs[n].hp <= base.npcs[n].hp)
    && (forall r, n {:trigger n in rooms[r].npcs} ::
          r in rooms && n in rooms[r].npcs ==> n in base.rooms[r].npcs && Alive(npcs, n))
    && (forall r, n {:trigger n in base.rooms[r].npcs} ::
          r in rooms && n in base.rooms[r].npcs && Alive(npcs, n) ==> n in rooms[r].npcs)
  }

  ghost predicate MapOk(base: World, rooms: map<string, Room>, npcs: map<string, Npc>) {
    SameMap(base, rooms, npcs) && RoomItemsKnown(base, rooms) && NpcLife(base, rooms, npcs)
  }

  ghost predicate WorldOk(base: World, w: World) {
    w.items == base.items && w.quests == base.quests && MapOk(base, w.rooms, w.npcs)
  }

  /** How many lines of dialogue an NPC has, bonus lines included. */
  function AllLines(npc: Npc): nat {
    |npc.dialogue| + |npc.bonusDialogue|
  }

  /** A character as the server keeps it: alive, somewhere, with known items, quests and statuses. */
  ghost predicate StateOk(base: World, name: string, p: PlayerState) {
    && p.id == name
    && p.room in base.rooms && Reached(base, p.room)
    && (forall i :: i in p.inventory ==> i in base.items)
    && 1 <= p.hp <= p.maxHp
    && p.maxHp == 100
    && (p.lastTarget == "" || p.lastTarget in base.npcs)
    && p.quests.Keys == base.quests.Keys
    && (forall q :: q in p.quests ==> p.quests[q] == IN_PROGRESS || p.quests[q] == COMPLETED)
    && (forall n {:trigger p.progress[n]} :: n in p.progress ==> n in base.npcs && p.progress[n] <= AllLines(base.npcs[n]))
  }

  /** Every defeat quest marked completed has all its targets dead. */
  ghost predicate Sound(quests: map<string, Quest>, npcs: map<string, Npc>, p: PlayerState) {
    forall q :: q in quests && quests[q].kind.Defeat? && q in p.quests && p.quests[q] == COMPLETED
            ==> AllDead(quests[q].targets, npcs)
  }

  ghost predicate HpFalls(npcs: map<string, Npc>, npcs': map<string, Npc>) {
    npcs'.Keys == npcs.Keys && forall n {:trigger npcs'[n]} :: n in npcs ==> npcs'[n].hp <= npcs[n].hp
  }

  lemma SoundStays(quests: map<string, Quest>, npcs: map<string, Npc>, npcs': map<string, Npc>, p: PlayerState)
    requires Sound(quests, npcs, p) && HpFalls(npcs, npcs')
    ensures Sound(quests, npcs', p)
  {
    forall q | q in quests && quests[q].kind.Defeat? && q in p.quests && p.quests[q] == COMPLETED
      ensures AllDead(quests[q].targets, npcs')
    {
      assert AllDead(quests[q].targets, npcs);
    }
  }

  // ---- what one player's handler may do ----------------------------------------------------

  /** The item vectors before and after, as the transfer describes them. */
  ghost predicate Moves(
    rooms: map<string, Room>, rooms': map<string, Room>, here: string,
    before: seq<string>, after: seq<string>, t: Transfer)
    requires here in rooms && rooms'.Keys == rooms.Keys
  {
    && (forall r {:trigger rooms'[r]} :: r in rooms && r != here ==> rooms'[r].items == rooms[r].items)
    && match t
       case Stay => after == before && rooms'[here].items == rooms[here].items
       case PickedUp(i) =>
         i in rooms[here].items && after == before + [i] && rooms'[here].items == Without(rooms[here].items, i)
       case PutDown(i) =>
         i in before && after == Without(before, i) && rooms'[here].items == rooms[here].items + [i]
       case Consumed(i) =>
         i in before && after == Without(before, i) && rooms'[here].items == rooms[here].items
  }

  /** An NPC that died in this section stood in the player's room; the follow-up names it, unless the
      id of that room is empty. */
  ghost predicate Deaths(base: World, here: string, npcs: map<string, Npc>, npcs': map<string, Npc>, follow: Follow) {
    forall n {:trigger npcs'[n]} :: n in npcs && n in npcs' && npcs[n].hp > 0 && npcs'[n].hp <= 0 ==>
      here in base.rooms && n in base.rooms[here].npcs && (follow == Defeated(n) || here == "")
  }

  /** A change of the map made by a player who was `p` and becomes `p'`. */
  ghost predicate Change(
    base: World, w: World, w': World, pid: string, p: PlayerState, p': PlayerState, follow: Follow, transfer: Transfer)
  {
    && p.room in w.rooms && Reached(base, p.room)
    && w'.rooms.Keys == w.rooms.Keys
    && MapOk(base, w'.rooms, w'.npcs)
    && HpFalls(w.npcs, w'.npcs)
    && StateOk(base, pid, p')
    && p'.quests == p.quests
    && Deaths(base, p.room, w.npcs, w'.npcs, follow)
    && (follow.Taken? ==> transfer == PickedUp(follow.item)) && (transfer.PickedUp? ==> follow == Taken(transfer.item))
    && Moves(w.rooms, w'.rooms, p.room, p.inventory, p'.inventory, transfer)
    && w' == w.(players := w.players[pid := p'], rooms := w'.rooms, npcs := w'.npcs)
  }

  /** A handler of `pid` for moving, items, combat or dialogue: it only replies, or it makes one
      change, tells the session the player's room and queues the player for saving - but a move into
      a room with an empty id is not queued. */
  ghost predicate Behaves(base: World, w: World, pid: string, room: string, o: Outcome)
    requires pid in w.players
  {
    && o.Outcome?
    && (|| (o.world == w && o.room == room && o.saves == [] && o.follow == Nothing && o.transfer == Stay)
        || (exists p' :: Change(base, w, o.world, pid, w.players[pid], p', o.follow, o.transfer)
                         && o.room == p'.room
                         && (o.saves == [p'] || (o.saves == [] && MovedNowhere(w.players[pid], p', o)))))
  }

  predicate MovedNowhere(p: PlayerState, p': PlayerState, o: Outcome)
    requires o.Outcome?
  {
    p' == p.(room := "") && o.follow == Nothing && o.transfer == Stay
  }

  /** Where a handler finds the world: the player is online, good, and the session knows the room. */
  ghost predicate Ready(base: World, w: World, pid: string, room: string) {
    && WorldOk(base, w)
    && pid in w.players && StateOk(base, pid, w.players[pid]) && room == w.players[pid].room
  }

  /** The facts about the player's room that the handlers rely on. */
  lemma RoomIsKnown(base: World, w: World, pid: string, room: string)
    requires Ready(base, w, pid, room)
    ensures w.rooms.Keys == base.rooms.Keys && room in w.rooms
    ensures w.rooms[room].id == base.rooms[room].id && w.rooms[room].exits == base.rooms[room].exits
  {
  }

  lemma NpcIsKnown(base: World, w: World, room: string, npc: string)
    requires MapOk(base, w.rooms, w.npcs) && room in w.rooms && npc in w.rooms[room].npcs
    ensures npc in w.npcs && w.npcs[npc].hp > 0 && w.npcs.Keys == base.npcs.Keys
    ensures w.npcs[npc] == base.npcs[npc].(hp := w.npcs[npc].hp)
  {
    StandingIsAlive(base, w.rooms, w.npcs, room, npc);
  }

  lemma NothingDies(base: World, here: string, npcs: map<string, Npc>, follow: Follow)
    ensures HpFalls(npcs, npcs) && Deaths(base, here, npcs, npcs, follow)
  {
  }

  lemma MoveBehaves(base: World, w: World, pid: string, room: string, args: seq<string>)
    requires Ready(base, w, pid, room) && ExitsLead(base) && (args != [] ==> IsToken(args[0]))
    ensures Behaves(base, w, pid, room, Move(w, pid, room, args))
  {
    hide Reached, HpFalls, Deaths, MapOk, Reached, IsToken;
    RoomIsKnown(base, w, pid, room);
    if args != [] && args[0] in w.rooms[room].exits {
      var target := w.rooms[room].exits[args[0]];
      assert target == base.rooms[room].exits[args[0]] && target in base.rooms;
      var moved := w.players[pid].(room := target);
      ReachedNext(base, room, args[0]);
      NothingDies(base, room, w.npcs, Nothing);
      assert Change(base, w, WithPlayer(w, moved, pid), pid, w.players[pid], moved, Nothing, Stay);
    }
  }

  /** A section whose one change is described is a section that behaves. */
  lemma ChangeBehaves(base: World, w: World, pid: string, room: string, o: Outcome, p': PlayerState)
    requires pid in w.players && o.Outcome? && o.room == p'.room && o.saves == [p']
    requires Change(base, w, o.world, pid, w.players[pid], p', o.follow, o.transfer)
    ensures Behaves(base, w, pid, room, o)
  {
    hide Change;
  }

  /** A player's bag and the items of its room change. */
  lemma ItemsChange(
    base: World, w: World, pid: string, room: string, bag: seq<string>, items: seq<string>, follow: Follow, t: Transfer)
    requires Ready(base, w, pid, room) && room in w.rooms
    requires (forall i :: i in bag ==> i in base.items) && (forall i :: i in items ==> i in base.items)
    requires (follow.Taken? ==> t == PickedUp(follow.item)) && (t.PickedUp? ==> follow == Taken(t.item))
    requires var rooms := w.rooms[room := w.rooms[room].(items := items)]; Moves(w.rooms, rooms, room, w.players[pid].inventory, bag, t)
    ensures
      var p' := w.players[pid].(inventory := bag);
      var w' := WithPlayer(w, p', pid).(rooms := w.rooms[room := w.rooms[room].(items := items)]);
      Change(base, w, w', pid, w.players[pid], p', follow, t)
  {
    hide Reached, HpFalls, Deaths, MapOk, Moves;
    RoomUpdateKeeps(base, w.rooms, w.npcs, room, items);
    NothingDies(base, room, w.npcs, follow);
  }

  lemma TakeBehaves(base: World, w: World, pid: string, room: string, args: seq<string>)
    requires Ready(base, w, pid, room)
    ensures Behaves(base, w, pid, room, Take(w, pid, room, args))
  {
    hide Reached, MapOk, Change, Without;
    RoomIsKnown(base, w, pid, room);
    var here, p := w.rooms[room], w.players[pid];
    var item := Resolve(here.items, ItemNames(w.items), JoinFrom(args, 0));
    if args != [] && item != "" {
      TakenItems(base, w.rooms, w.npcs, room, item);
      ItemsChange(base, w, pid, room, p.inventory + [item], Without(here.items, item), Taken(item), PickedUp(item));
      ChangeBehaves(base, w, pid, room, Take(w, pid, room, args), p.(inventory := p.inventory + [item]));
    }
  }

  lemma TakenItems(base: World, rooms: map<string, Room>, npcs: map<string, Npc>, r: string, item: string)
    requires MapOk(base, rooms, npcs) && r in rooms && item in rooms[r].items
    ensures item in base.items
    ensures forall i :: i in Without(rooms[r].items, item) ==> i in base.items
  {
    WithoutMembers(rooms[r].items, item);
  }

  lemma RoomItems(base: World, rooms: map<string, Room>, npcs: map<string, Npc>, r: string)
    requires MapOk(base, rooms, npcs) && r in rooms
    ensures forall i :: i in rooms[r].items ==> i in base.items
  {
  }

  /** Replacing a room's item list by known items keeps the map good. */
  lemma RoomUpdateKeeps(base: World, rooms: map<string, Room>, npcs: map<string, Npc>, r: string, items: seq<string>)
    requires MapOk(base, rooms, npcs) && r in rooms
    requires forall i :: i in items ==> i in base.items
    ensures MapOk(base, rooms[r := rooms[r].(items := items)], npcs)
  {
  }

  lemma DropBehaves(base: World, w: World, pid: string, room: string, args: seq<string>)
    requires Ready(base, w, pid, room)
    ensures Behaves(base, w, pid, room, Drop(w, pid, room, args))
  {
    hide Reached, MapOk, Change, Without;
    RoomIsKnown(base, w, pid, room);
    RoomItems(base, w.rooms, w.npcs, room);
    var here, p := w.rooms[room], w.players[pid];
    var item := Resolve(p.inventory, ItemNames(w.items), JoinFrom(args, 0));
    if args != [] && item != "" {
      WithoutMembers(p.inventory, item);
      ItemsChange(base, w, pid, room, Without(p.inventory, item), here.items + [item], Nothing, PutDown(item));
      ChangeBehaves(base, w, pid, room, Drop(w, pid, room, args), p.(inventory := Without(p.inventory, item)));
    }
  }

  lemma ProgressIsBounded(npc: Npc, p: PlayerState, nid: string)
    ensures NextProgress(npc, p, nid) <= Max(if nid in p.progress then p.progress[nid] else 0, AllLines(npc))
  {
  }

  lemma TalkBehaves(base: World, w: World, pid: string, room: string, args: seq<string>)
    requires Ready(base, w, pid, room)
    ensures Behaves(base, w, pid, room, Talk(w, pid, room, args))
  {
    hide Reached, HpFalls, Deaths, MapOk, NextProgress;
    RoomIsKnown(base, w, pid, room);
    var p := w.players[pid];
    var npc := Resolve(w.rooms[room].npcs, NpcNames(w.npcs), JoinFrom(args, 0));
    if args != [] && npc != "" {
      NpcIsKnown(base, w, room, npc);
      ProgressIsBounded(w.npcs[npc], p, npc);
      var talker := p.(progress := p.progress[npc := NextProgress(w.npcs[npc], p, npc)]);
      NothingDies(base, room, w.npcs, Nothing);
      assert Change(base, w, WithPlayer(w, talker, pid), pid, p, talker, Nothing, Stay);
    }
  }

  lemma MapKeys(base: World, rooms: map<string, Room>, npcs: map<string, Npc>)
    requires SameMap(base, rooms, npcs)
    ensures rooms.Keys == base.rooms.Keys && npcs.Keys == base.npcs.Keys
  {
  }

  /** An NPC that loses hp but survives: only its hp differs. */
  lemma WoundKeeps(base: World, rooms: map<string, Room>, npcs: map<string, Npc>, npc: string, hp: int)
    requires MapOk(base, rooms, npcs) && npc in npcs && 0 < hp <= npcs[npc].hp
    ensures MapOk(base, rooms, WithHp(npcs, npc, hp))
  {
    hide RoomItemsKnown, NpcLife, WithHp;
    WoundKeepsMap(base, rooms, npcs, npc, hp);
    WoundKeepsLife(base, rooms, npcs, npc, hp);
  }

  lemma WoundKeepsMap(base: World, rooms: map<string, Room>, npcs: map<string, Npc>, npc: string, hp: int)
    requires SameMap(base, rooms, npcs) && npc in npcs
    ensures SameMap(base, rooms, WithHp(npcs, npc, hp))
  {
  }

  lemma WoundKeepsLife(base: World, rooms: map<string, Room>, npcs: map<string, Npc>, npc: string, hp: int)
    requires SameMap(base, rooms, npcs) && NpcLife(base, rooms, npcs) && npc in npcs && 0 < hp <= npcs[npc].hp
    requires SameMap(base, rooms, WithHp(npcs, npc, hp))
    ensures NpcLife(base, rooms, WithHp(npcs, npc, hp))
  {
    hide SameMap;
    MapKeys(base, rooms, npcs);
    var npcs' := WithHp(npcs, npc, hp);
    assert forall n {:trigger Alive(npcs', n)} {:trigger Alive(npcs, n)} :: Alive(npcs', n) <==> Alive(npcs, n);
  }

  lemma VacatedNpcs(rooms: map<string, Room>, where: string, npc: string, r: string, n: string)
    requires where in rooms && r in rooms
    ensures n in Vacated(rooms, where, npc)[r].npcs <==> n in rooms[r].npcs && !(r == where && n == npc)
    ensures Vacated(rooms, where, npc)[r].items == rooms[r].items
  {
    WithoutMembers(rooms[where].npcs, npc);
  }

  lemma DeathKeepsMap(base: World, rooms: map<string, Room>, npcs: map<string, Npc>, npc: string, where: string)
    requires SameMap(base, rooms, npcs) && RoomItemsKnown(base, rooms)
    requires where in rooms && npc in npcs
    ensures SameMap(base, Vacated(rooms, where, npc), WithHp(npcs, npc, 0))
    ensures RoomItemsKnown(base, Vacated(rooms, where, npc))
  {
  }

  /** No room but `where` is home to the NPC. */
  ghost predicate LivesOnlyIn(base: World, where: string, npc: string) {
    forall r {:trigger npc in base.rooms[r].npcs} :: r in base.rooms && npc in base.rooms[r].npcs ==> r == where
  }

  lemma SaneNpcsHaveOneRoom(base: World, where: string, npc: string)
    requires NpcsSane(base) && where in base.rooms && npc in base.rooms[where].npcs
    ensures LivesOnlyIn(base, where, npc)
  {
  }

  /** An NPC that dies leaves its one room. */
  lemma DeathKeeps(base: World, rooms: map<string, Room>, npcs: map<string, Npc>, npc: string, where: string)
    requires NpcsSane(base) && MapOk(base, rooms, npcs) && where in rooms && npc in rooms[where].npcs
    ensures npc in npcs && MapOk(base, Vacated(rooms, where, npc), WithHp(npcs, npc, 0))
  {
    hide NpcsSane, RoomItemsKnown, SameMap, NpcLife, Vacated, WithHp, LivesOnlyIn;
    StandingIsAlive(base, rooms, npcs, where, npc);
    SaneNpcsHaveOneRoom(base, where, npc);
    DeathKeepsMap(base, rooms, npcs, npc, where);
    DeathKeepsLife(base, rooms, npcs, npc, where);
  }

  lemma DeathKeepsLife(base: World, rooms: map<string, Room>, npcs: map<string, Npc>, npc: string, where: string)
    requires SameMap(base, rooms, npcs) && NpcLife(base, rooms, npcs) && LivesOnlyIn(base, where, npc)
    requires where in rooms && npc in npcs && npc in rooms[where].npcs
    requires SameMap(base, Vacated(rooms, where, npc), WithHp(npcs, npc, 0))
    ensures NpcLife(base, Vacated(rooms, where, npc), WithHp(npcs, npc, 0))
  {
    hide SameMap, Vacated;
    var rooms', npcs' := Vacated(rooms, where, npc), WithHp(npcs, npc, 0);
    MapKeys(base, rooms, npcs);
    MapKeys(base, rooms', npcs');
    assert forall n {:trigger Alive(npcs', n)} :: Alive(npcs', n) <==> Alive(npcs, n) && n != npc;
    forall r, n {:trigger n in base.rooms[r].npcs} | r in rooms' && n in base.rooms[r].npcs && Alive(npcs', n)
      ensures n in rooms'[r].npcs
    {
      VacatedNpcs(rooms, where, npc, r, n);
    }
    forall r, n {:trigger n in rooms'[r].npcs} | r in rooms' && n in rooms'[r].npcs
      ensures n in base.rooms[r].npcs && Alive(npcs', n)
    {
      VacatedNpcs(rooms, where, npc, r, n);
    }
  }

  /** Damage to an NPC standing in a room keeps the map good and is the only death there is. */
  lemma HurtNpcKeeps(base: World, w: World, where: string, npc: string, damage: int)
    requires NpcsSane(base) && MapOk(base, w.rooms, w.npcs)
    requires where in w.rooms && npc in w.rooms[where].npcs && damage >= 0
    ensures npc in w.npcs
    ensures
      var w' := HurtNpc(w, where, npc, damage);
      && npc in w'.npcs
      && MapOk(base, w'.rooms, w'.npcs)
      && HpFalls(w.npcs, w'.npcs)
      && Deaths(base, where, w.npcs, w'.npcs, DeathOf(w', npc))
      && w' == w.(npcs := w'.npcs, rooms := w'.rooms)
      && SameItems(w.rooms, w'.rooms)
  {
    hide MapOk, NpcsSane, Deaths, HpFalls, WithHp, Vacated, SameItems;
    StandingIsAlive(base, w.rooms, w.npcs, where, npc);
    var hp := Max(0, w.npcs[npc].hp - damage);
    HpOnlyFalls(base, where, w.npcs, npc, hp);
    SameItemsVacated(w.rooms, where, npc);
    if hp > 0 {
      WoundKeeps(base, w.rooms, w.npcs, npc, hp);
    } else {
      DeathKeeps(base, w.rooms, w.npcs, npc, where);
    }
  }

  lemma StandingIsAlive(base: World, rooms: map<string, Room>, npcs: map<string, Npc>, r: string, n: string)
    requires MapOk(base, rooms, npcs) && r in rooms && n in rooms[r].npcs
    ensures Alive(npcs, n) && r in base.rooms && n in base.rooms[r].npcs
  {
  }

  lemma SameItemsVacated(rooms: map<string, Room>, where: string, npc: string)
    requires where in rooms
    ensures SameItems(rooms, rooms) && SameItems(rooms, Vacated(rooms, where, npc))
  {
  }

  lemma HpOnlyFalls(base: World, where: string, npcs: map<string, Npc>, npc: string, hp: int)
    requires npc in npcs && hp <= npcs[npc].hp && where in base.rooms && npc in base.rooms[where].npcs
    ensures npc in WithHp(npcs, npc, hp) && WithHp(npcs, npc, hp)[npc].hp == hp
    ensures HpFalls(npcs, WithHp(npcs, npc, hp))
    ensures Deaths(base, where, npcs, WithHp(npcs, npc, hp), if hp <= 0 then Defeated(npc) else Nothing)
  {
  }

  ghost predicate SameItems(rooms: map<string, Room>, rooms': map<string, Room>) {
    rooms'.Keys == rooms.Keys && forall r {:trigger rooms'[r]} :: r in rooms ==> rooms'[r].items == rooms[r].items
  }

  lemma UseBehaves(base: World, w: World, pid: string, room: string, args: seq<string>)
    requires Ready(base, w, pid, room) && NpcsSane(base) && AmountsSane(base)
    ensures Behaves(base, w, pid, room, Use(w, pid, room, args))
  {
    hide NpcsSane, AmountsSane, MapOk;
    if args != [] {
      var p := w.players[pid];
      var item := Resolve(p.inventory, ItemNames(w.items), args[0]);
      if item != "" {
        assert item in w.items;
        if w.items[item].effect.Heal? {
          HealBehaves(base, w, pid, room, item);
        } else if w.items[item].effect.Damage? {
          ThrowBehaves(base, w, pid, room, item, JoinFrom(args, 1));
        }
      }
    }
  }

  lemma HealBehaves(base: World, w: World, pid: string, room: string, item: string)
    requires Ready(base, w, pid, room) && AmountsSane(base)
    requires item in w.players[pid].inventory && item in w.items
    ensures Behaves(base, w, pid, room, UseHeal(w, w.players[pid], pid, room, item))
  {
    hide Reached, HpFalls, Deaths, MapOk, AmountsSane;
    RoomIsKnown(base, w, pid, room);
    AmountIsSane(base, item);
    var p := w.players[pid];
    WithoutMembers(p.inventory, item);
    var user := p.(inventory := Without(p.inventory, item), hp := Min(p.maxHp, p.hp + w.items[item].amount));
    NothingDies(base, room, w.npcs, Nothing);
    assert Change(base, w, WithPlayer(w, user, pid), pid, p, user, Nothing, Consumed(item));
  }

  lemma AmountIsSane(base: World, item: string)
    requires AmountsSane(base) && item in base.items
    ensures base.items[item].amount >= 0
  {
  }

  lemma ThrowBehaves(base: World, w: World, pid: string, room: string, item: string, targetRef: string)
    requires Ready(base, w, pid, room) && NpcsSane(base) && AmountsSane(base)
    requires item in w.players[pid].inventory && item in w.items
    ensures Behaves(base, w, pid, room, UseDamage(w, w.players[pid], pid, room, item, targetRef))
  {
    hide HurtNpc, HpFalls, Deaths, MapOk, NpcsSane, AmountsSane, SameItems;
    RoomIsKnown(base, w, pid, room);
    AmountIsSane(base, item);
    var npc := Resolve(w.rooms[room].npcs, NpcNames(w.npcs), targetRef);
    if targetRef != "" && npc != "" {
      var p := w.players[pid];
      var user := p.(inventory := Without(p.inventory, item));
      var with, damage := WithPlayer(w, user, pid), w.items[item].amount;
      HurtNpcKeeps(base, with, room, npc, damage);
      var w' := HurtNpc(with, room, npc, damage);
      assert StateOk(base, pid, user) by { WithoutMembers(p.inventory, item); }
      ItemsStay(w.rooms, w'.rooms, room, p.inventory, user.inventory, Consumed(item));
      assert Change(base, w, w', pid, p, user, DeathOf(w', npc), Consumed(item));
    }
  }

  lemma ItemsStay(
    rooms: map<string, Room>, rooms': map<string, Room>, here: string, before: seq<string>, after: seq<string>, t: Transfer)
    requires here in rooms && SameItems(rooms, rooms')
    requires (t == Stay && after == before) || (t.Consumed? && t.item in before && after == Without(before, t.item))
    ensures rooms'.Keys == rooms.Keys && Moves(rooms, rooms', here, before, after, t)
  {
  }

  lemma AttackBehaves(base: World, w: World, pid: string, room: string, args: seq<string>, roll: Roll)
    requires Ready(base, w, pid, room) && NpcsSane(base) && START_ROOM in base.rooms
    requires base.rooms[room].id == room
    requires args != [] ==>
               var npc := Resolve(w.rooms[room].npcs, NpcNames(w.npcs), JoinFrom(args, 0));
               npc in w.npcs ==> InRange(roll, w.npcs[npc])
    ensures Behaves(base, w, pid, room, Attack(w, pid, room, args, roll))
  {
    hide NpcsSane, MapOk, Strike, Change;
    RoomIsKnown(base, w, pid, room);
    var npc := Resolve(w.rooms[room].npcs, NpcNames(w.npcs), JoinFrom(args, 0));
    if args != [] && npc != "" {
      NpcIsKnown(base, w, room, npc);
      StrikeBehaves(base, w, pid, room, npc, roll);
    }
  }

  lemma StrikeBehaves(base: World, w: World, pid: string, room: string, npc: string, roll: Roll)
    requires Ready(base, w, pid, room) && NpcsSane(base) && START_ROOM in base.rooms
    requires room in base.rooms && base.rooms[room].id == room
    requires npc in w.npcs && room in w.rooms && npc in w.rooms[room].npcs && InRange(roll, w.npcs[npc])
    ensures Behaves(base, w, pid, room, Strike(w, w.players[pid], pid, room, npc, roll))
  {
    hide HurtNpc, Reached, HpFalls, Deaths, MapOk, NpcsSane, SameItems, StateOk, Moves, Behaves;
    RoomIsKnown(base, w, pid, room);
    NpcIsKnown(base, w, room, npc);
    var p := w.players[pid];
    HurtNpcKeeps(base, w, room, npc, if roll.hit then roll.damage else 0);
    CounterIsSane(base, npc);
    var o := Strike(w, p, pid, room, npc, roll);
    var attacker := o.world.players[pid];
    var counter := if o.world.npcs[npc].hp > 0 && roll.countered then roll.counterDamage else 0;
    AttackerIsOk(base, pid, p, npc, counter);
    ItemsStay(w.rooms, o.world.rooms, room, p.inventory, attacker.inventory, Stay);
    if room == "" {
      UnreportedDeath(base, w.npcs, o.world.npcs, DeathOf(o.world, npc));
    }
    assert room in w.rooms && Reached(base, room) by { PlayerWalked(base, pid, p); }
    ChangeBehaves(base, w, pid, room, o, attacker);
  }

  lemma PlayerWalked(base: World, pid: string, p: PlayerState)
    requires StateOk(base, pid, p)
    ensures Reached(base, p.room)
  {
    hide Reached;
  }

  /** The attacker after the counter-blow: alive, respawned if need be. */
  lemma AttackerIsOk(base: World, pid: string, p: PlayerState, npc: string, counter: int)
    requires StateOk(base, pid, p) && START_ROOM in base.rooms && npc in base.npcs && counter >= 0
    ensures
      var hp := Max(0, p.hp - counter);
      StateOk(base, pid, if hp <= 0 then p.(lastTarget := npc, hp := RESPAWN_HP, room := START_ROOM) else p.(lastTarget := npc, hp := hp))
  {
    hide Reached;
    StartIsReached(base);
  }

  /** In a room with an empty id no follow-up need name the dead. */
  lemma UnreportedDeath(base: World, npcs: map<string, Npc>, npcs': map<string, Npc>, follow: Follow)
    requires Deaths(base, "", npcs, npcs', follow)
    ensures Deaths(base, "", npcs, npcs', Nothing)
  {
  }

  lemma CounterIsSane(base: World, npc: string)
    requires NpcsSane(base) && npc in base.npcs
    ensures base.npcs[npc].counterMin >= 0
  {
  }
}
