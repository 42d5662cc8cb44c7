/** What each handler does inside one critical section of the world mutex, as a function of the
    world it finds. `Threw` stands for the exception of a failing `.at()` lookup. */
module Sections {
  import opened Lists
  import opened WorldModel

  datatype ErrorKind =
    | NotConnected | BadMessage | NameInUse | NoExit | NotInGroup | AlreadyInGroup
    | ItemNotFound | ItemNotInInventory | NpcNotFound | PlayerNotFound | CharacterNotFound
    | Dead | Internal

  datatype Reply = Ok | Err(kind: ErrorKind)

  /** The critical section a handler enters later, once its saves are done. */
  datatype Follow = Nothing | Defeated(npc: string) | Taken(item: string)

  /** Which item id moved between two vectors. */
  datatype Transfer = Stay | PickedUp(item: string) | PutDown(item: string) | Consumed(item: string)

  datatype Outcome =
    | Threw
    | Outcome(world: World, room: string, reply: Reply, saves: seq<PlayerState>, follow: Follow, transfer: Transfer)

  /** A handler that only replies. */
  function Refuse(w: World, room: string, kind: ErrorKind): Outcome {
    Outcome(w, room, Err(kind), [], Nothing, Stay)
  }

  function WithPlayer(w: World, p: PlayerState, pid: string): World {
    w.(players := w.players[pid := p])
  }

  // ---- quests ------------------------------------------------------------------------------

  predicate AlreadyDone(q: Quest, npcs: map<string, Npc>) {
    q.kind.Defeat? && AllDead(q.targets, npcs)
  }

  /** `init_player_quests_locked`: quests the player has no status for get one; the others keep theirs. */
  function InitQuests(w: World, p: PlayerState): PlayerState {
    p.(quests := map q | q in p.quests.Keys + w.quests.Keys ::
                   if q in p.quests then p.quests[q]
                   else if AlreadyDone(w.quests[q], w.npcs) then COMPLETED else IN_PROGRESS)
  }

  /** One quest status flips to completed; a reward, if any, is handed out. */
  function Complete(p: PlayerState, qid: string, reward: string): PlayerState {
    p.(quests := p.quests[qid := COMPLETED],
       inventory := if reward == "" then p.inventory else p.inventory + [reward])
  }

  predicate IsOpen(p: PlayerState, qid: string) {
    qid in p.quests && p.quests[qid] == IN_PROGRESS
  }

  /** The loop of `on_item_taken` over the quests, in iteration order. */
  function FetchPass(p: PlayerState, quests: map<string, Quest>, item: string, order: seq<string>): PlayerState
    decreases |order|
  {
    if order == [] then p
    else
      var qid := order[0];
      if qid in quests && quests[qid].kind.Fetch? && quests[qid].target == item && IsOpen(p, qid)
      then FetchPass(Complete(p, qid, quests[qid].reward), quests, item, order[1..])
      else FetchPass(p, quests, item, order[1..])
  }

  function OnItemTaken(w: World, pid: string, room: string, item: string, order: seq<string>): Outcome {
    if pid !in w.players then Outcome(w, room, Ok, [], Nothing, Stay)
    else
      var p := FetchPass(w.players[pid], w.quests, item, order);
      if p == w.players[pid] then Outcome(w, room, Ok, [], Nothing, Stay)
      else Outcome(WithPlayer(w, p, pid), room, Ok, [p], Nothing, Stay)
  }

  /** Players as a pass over the completions leaves them, and the copies queued for saving. */
  datatype Pass = Pass(players: map<string, PlayerState>, saves: seq<PlayerState>)

  /** The inner loop of `on_npc_defeated`: one cleared quest, the players in iteration order. */
  function FlipPlayers(pass: Pass, qid: string, reward: string, order: seq<string>): Pass
    decreases |order|
  {
    if order == [] then pass else FlipPlayers(FlipPlayer(pass, qid, reward, order[0]), qid, reward, order[1..])
  }

  function FlipPlayer(pass: Pass, qid: string, reward: string, pid: string): Pass {
    if pid in pass.players && IsOpen(pass.players[pid], qid)
    then
      var p := Complete(pass.players[pid], qid, reward);
      Pass(pass.players[pid := p], pass.saves + [p])
    else pass
  }

  /** `npc` is one of the targets of defeat quest `qid` and all of its targets are dead. */
  predicate Cleared(quests: map<string, Quest>, npcs: map<string, Npc>, npc: string, qid: string) {
    && qid in quests
    && quests[qid].kind.Defeat?
    && npc in quests[qid].targets
    && AllDead(quests[qid].targets, npcs)
  }

  /** The outer loop of `on_npc_defeated` over the quests, in iteration order. */
  function DefeatPass(
    pass: Pass, quests: map<string, Quest>, npcs: map<string, Npc>, npc: string,
    questOrder: seq<string>, playerOrder: seq<string>): Pass
    decreases |questOrder|
  {
    if questOrder == [] then pass
    else
      DefeatPass(DefeatOne(pass, quests, npcs, npc, questOrder[0], playerOrder), quests, npcs, npc, questOrder[1..], playerOrder)
  }

  function DefeatOne(
    pass: Pass, quests: map<string, Quest>, npcs: map<string, Npc>, npc: string,
    qid: string, playerOrder: seq<string>): Pass
  {
    if Cleared(quests, npcs, npc, qid) then FlipPlayers(pass, qid, quests[qid].reward, playerOrder) else pass
  }

  function OnNpcDefeated(w: World, room: string, npc: string, questOrder: seq<string>, playerOrder: seq<string>): Outcome {
    var pass := DefeatPass(Pass(w.players, []), w.quests, w.npcs, npc, questOrder, playerOrder);
    Outcome(w.(players := pass.players), room, Ok, pass.saves, Nothing, Stay)
  }

  // ---- movement and items ------------------------------------------------------------------

  function Move(w: World, pid: string, room: string, args: seq<string>): Outcome {
    if args == [] then Refuse(w, room, BadMessage)
    else if pid !in w.players then Threw
    else
      var p := w.players[pid];
      if p.room !in w.rooms then Threw
      else if args[0] !in w.rooms[p.room].exits then Refuse(w, room, NoExit)
      else
        var target := w.rooms[p.room].exits[args[0]];
        var moved := p.(room := target);
        Outcome(WithPlayer(w, moved, pid), target, Ok, if target == "" then [] else [moved], Nothing, Stay)
  }

  function Take(w: World, pid: string, room: string, args: seq<string>): Outcome {
    if args == [] then Refuse(w, room, BadMessage)
    else if pid !in w.players then Threw
    else
      var p := w.players[pid];
      if p.room !in w.rooms then Threw
      else
        var here := w.rooms[p.room];
        var item := Resolve(here.items, ItemNames(w.items), JoinFrom(args, 0));
        if item == "" then Refuse(w, room, ItemNotFound)
        else
          var taker := p.(inventory := p.inventory + [item]);
          var w' := WithPlayer(w, taker, pid).(rooms := w.rooms[p.room := here.(items := Without(here.items, item))]);
          Outcome(w', room, Ok, [taker], Taken(item), PickedUp(item))
  }

  function Drop(w: World, pid: string, room: string, args: seq<string>): Outcome {
    if args == [] then Refuse(w, room, BadMessage)
    else if pid !in w.players then Threw
    else
      var p := w.players[pid];
      if p.room !in w.rooms then Threw
      else
        var here := w.rooms[p.room];
        var item := Resolve(p.inventory, ItemNames(w.items), JoinFrom(args, 0));
        if item == "" then Refuse(w, room, ItemNotInInventory)
        else
          var dropper := p.(inventory := Without(p.inventory, item));
          var w' := WithPlayer(w, dropper, pid).(rooms := w.rooms[p.room := here.(items := here.items + [item])]);
          Outcome(w', room, Ok, [dropper], Nothing, PutDown(item))
  }

  /** The room `where` once the NPC is gone from it. */
  function Vacated(rooms: map<string, Room>, where: string, npc: string): map<string, Room>
    requires where in rooms
  {
    rooms[where := rooms[where].(npcs := Without(rooms[where].npcs, npc))]
  }

  function WithHp(npcs: map<string, Npc>, npc: string, hp: int): map<string, Npc>
    requires npc in npcs
  {
    npcs[npc := npcs[npc].(hp := hp)]
  }

  /** An NPC loses hp; one that dies leaves the room it stands in. */
  function HurtNpc(w: World, where: string, npc: string, damage: int): World
    requires where in w.rooms && npc in w.npcs
  {
    var hp := Max(0, w.npcs[npc].hp - damage);
    w.(npcs := WithHp(w.npcs, npc, hp), rooms := if hp <= 0 then Vacated(w.rooms, where, npc) else w.rooms)
  }

  function DeathOf(w: World, npc: string): Follow
    requires npc in w.npcs
  {
    if w.npcs[npc].hp <= 0 then Defeated(npc) else Nothing
  }

  function Use(w: World, pid: string, room: string, args: seq<string>): Outcome {
    if args == [] then Refuse(w, room, BadMessage)
    else if pid !in w.players then Threw
    else if w.players[pid].hp <= 0 then Refuse(w, room, Dead)
    else
      var p := w.players[pid];
      var item := Resolve(p.inventory, ItemNames(w.items), args[0]);
      if item == "" then Refuse(w, room, ItemNotInInventory)
      else if item !in w.items then Threw
      else match w.items[item].effect
        case Heal => UseHeal(w, p, pid, room, item)
        case Damage => UseDamage(w, p, pid, room, item, JoinFrom(args, 1))
        case NoEffect => Refuse(w, room, BadMessage)
  }

  function UseHeal(w: World, p: PlayerState, pid: string, room: string, item: string): Outcome
    requires item in w.items
  {
    var user := p.(inventory := Without(p.inventory, item), hp := Min(p.maxHp, p.hp + w.items[item].amount));
    Outcome(WithPlayer(w, user, pid), room, Ok, [user], Nothing, Consumed(item))
  }

  function UseDamage(w: World, p: PlayerState, pid: string, room: string, item: string, targetRef: string): Outcome
    requires item in w.items
  {
    if targetRef == "" then Refuse(w, room, BadMessage)
    else if p.room !in w.rooms then Threw
    else
      var npc := Resolve(w.rooms[p.room].npcs, NpcNames(w.npcs), targetRef);
      if npc == "" then Refuse(w, room, NpcNotFound)
      else if npc !in w.npcs then Threw
      else
        var user := p.(inventory := Without(p.inventory, item));
        var w' := HurtNpc(WithPlayer(w, user, pid), p.room, npc, w.items[item].amount);
        Outcome(w', room, Ok, [user], DeathOf(w', npc), Consumed(item))
  }

  // ---- combat ------------------------------------------------------------------------------

  const PLAYER_DAMAGE_MIN := 10
  const PLAYER_DAMAGE_MAX := 15
  const RESPAWN_HP := 50

  /** The dice of one attack: whether each side hits, and for how much. */
  datatype Roll = Roll(hit: bool, damage: int, countered: bool, counterDamage: int)

  predicate InRange(roll: Roll, npc: Npc) {
    && PLAYER_DAMAGE_MIN <= roll.damage <= PLAYER_DAMAGE_MAX
    && npc.counterMin <= roll.counterDamage <= npc.counterMax
  }

  function Attack(w: World, pid: string, room: string, args: seq<string>, roll: Roll): Outcome {
    if args == [] then Refuse(w, room, BadMessage)
    else if pid !in w.players then Threw
    else if w.players[pid].hp <= 0 then Refuse(w, room, Dead)
    else
      var p := w.players[pid];
      if p.room !in w.rooms then Threw
      else
        var npc := Resolve(w.rooms[p.room].npcs, NpcNames(w.npcs), JoinFrom(args, 0));
        if npc == "" then Refuse(w, room, NpcNotFound)
        else if npc !in w.npcs then Threw
        else Strike(w, p, pid, room, npc, roll)
  }

  /** Blow, counter-blow and, if it comes to that, the player's respawn. */
  function Strike(w: World, p: PlayerState, pid: string, room: string, npc: string, roll: Roll): Outcome
    requires p.room in w.rooms && npc in w.npcs
  {
    var hurt := HurtNpc(w, p.room, npc, if roll.hit then roll.damage else 0);
    var counter := if hurt.npcs[npc].hp > 0 && roll.countered then roll.counterDamage else 0;
    var hp := Max(0, p.hp - counter);
    var attacker :=
      if hp <= 0 then p.(lastTarget := npc, hp := RESPAWN_HP, room := START_ROOM)
      else p.(lastTarget := npc, hp := hp);
    Outcome(WithPlayer(hurt, attacker, pid), if hp <= 0 then START_ROOM else room, Ok, [attacker],
            if w.rooms[p.room].id == "" then Nothing else DeathOf(hurt, npc), Stay)
  }

  // ---- dialogue ----------------------------------------------------------------------------

  predicate BonusUnlocked(npc: Npc, p: PlayerState) {
    npc.unlockQuests != [] && forall q :: q in npc.unlockQuests ==> q in p.quests && p.quests[q] == COMPLETED
  }

  function LineCount(npc: Npc, p: PlayerState): nat {
    |npc.dialogue| + if BonusUnlocked(npc, p) then |npc.bonusDialogue| else 0
  }

  function NextProgress(npc: Npc, p: PlayerState, nid: string): nat {
    var progress := if nid in p.progress then p.progress[nid] else 0;
    var total := LineCount(npc, p);
    if total == 0 then progress else (progress % total + 1) % total
  }

  function Talk(w: World, pid: string, room: string, args: seq<string>): Outcome {
    if args == [] then Refuse(w, room, BadMessage)
    else if pid !in w.players then Threw
    else
      var p := w.players[pid];
      if p.room !in w.rooms then Threw
      else
        var npc := Resolve(w.rooms[p.room].npcs, NpcNames(w.npcs), JoinFrom(args, 0));
        if npc == "" then Refuse(w, room, NpcNotFound)
        else if npc !in w.npcs then Threw
        else
          var talker := p.(progress := p.progress[npc := NextProgress(w.npcs[npc], p, npc)]);
          Outcome(WithPlayer(w, talker, pid), room, Ok, [talker], Nothing, Stay)
  }

  /** PROFILE, STATUS, INVENTORY, QUESTS and QUEST of a known quest look the player up and change nothing. */
  function Query(w: World, pid: string, room: string): Outcome {
    if pid !in w.players then Threw else Outcome(w, room, Ok, [], Nothing, Stay)
  }

  // ---- groups ------------------------------------------------------------------------------

  function GroupOf(playerGroup: map<string, string>, pid: string): string {
    if pid in playerGroup then playerGroup[pid] else ""
  }

  function MembersOf(groups: map<string, seq<string>>, g: string): seq<string> {
    if g in groups then groups[g] else []
  }

  /** Reading `player_group[pid]` creates an empty entry when there was none. */
  function Touched(w: World, pid: string): World {
    w.(playerGroup := w.playerGroup[pid := GroupOf(w.playerGroup, pid)])
  }

  function LeaveGroup(w: World, pid: string): World {
    var g := GroupOf(w.playerGroup, pid);
    if g == "" then w
    else
      var members := Without(MembersOf(w.groups, g), pid);
      w.(groups := if members == [] then w.groups - {g} else w.groups[g := members],
         playerGroup := w.playerGroup - {pid})
  }

  function GroupCreate(w: World, pid: string, room: string, args: seq<string>): Outcome {
    var t := Touched(w, pid);
    if t.playerGroup[pid] != "" then Refuse(t, room, AlreadyInGroup)
    else
      var g := if |args| > 1 then args[1] else pid;
      if g in t.groups then Refuse(t, room, NameInUse)
      else
        Outcome(t.(playerGroup := t.playerGroup[pid := g], groups := t.groups[g := [pid]]), room, Ok, [], Nothing, Stay)
  }

  function GroupInvite(w: World, pid: string, room: string, args: seq<string>): Outcome {
    if |args| < 2 || args[1] == pid then Refuse(w, room, BadMessage)
    else if args[1] !in w.players then Refuse(w, room, PlayerNotFound)
    else
      var t := Touched(w, pid);
      var g := t.playerGroup[pid];
      if g == "" then Refuse(t, room, NotInGroup)
      else Outcome(t.(invites := t.invites + multiset{(args[1], g)}), room, Ok, [], Nothing, Stay)
  }

  function GroupAccept(w: World, pid: string, room: string, args: seq<string>): Outcome {
    if |args| < 2 then Refuse(w, room, BadMessage)
    else if (pid, args[1]) !in w.invites then
      Refuse(w, room, if HasKeyFrom(w.invites, pid) then Internal else BadMessage)
    else
      var g := args[1];
      var left := LeaveGroup(w, pid);
      Outcome(left.(groups := left.groups[g := MembersOf(left.groups, g) + [pid]],
                    playerGroup := left.playerGroup[pid := g],
                    invites := left.invites - multiset{(pid, g)}), room, Ok, [], Nothing, Stay)
  }

  /** Some pending invite is for `pid` or for a name after it: then `equal_range` is not at the end of the map. */
  predicate HasKeyFrom(invites: multiset<(string, string)>, pid: string) {
    exists e :: e in invites && !Before(e.0, pid)
  }

  /** Byte-wise lexicographic order. */
  predicate Before(a: string, b: string) {
    if b == "" then false
    else if a == "" then true
    else a[0] < b[0] || (a[0] == b[0] && Before(a[1..], b[1..]))
  }

  function GroupLeave(w: World, pid: string, room: string): Outcome {
    Outcome(LeaveGroup(Touched(w, pid), pid), room, Ok, [], Nothing, Stay)
  }

  // ---- login and logout --------------------------------------------------------------------

  /** The section of CREATE_CHARACTER that reserves a name neither online nor on disk. */
  function Reserve(w: World, name: string, race: string, attributes: string): World {
    var p := InitQuests(w, NewCharacter(name, race, attributes));
    WithPlayer(w, p, name)
  }

  /** The second section of CONNECT. */
  function Enter(w: World, name: string, loaded: PlayerState): World {
    WithPlayer(w, InitQuests(w, loaded), name)
  }

  /** The section of the disconnect handler. */
  function Depart(w: World, name: string): World {
    LeaveGroup(w.(players := w.players - {name}), name)
  }
}
