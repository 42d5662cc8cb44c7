/** The shared world as an object updated in place: one method per critical section of the world mutex,
    each proved to do what the section's function in `Sections` says. */
module LiveWorld {
  import opened Lists
  import opened WorldModel
  import opened Sections
  import opened Common
  import opened Invites

  class Session {
    var playerId: string
    var currentRoom: string

    constructor ()
      ensures playerId == "" && currentRoom == ""
    {
      playerId, currentRoom := "", "";
    }
  }

  /** How a critical section ends: with the exception of a failing lookup, or with a reply, the copies to
      save once the mutex is released, and the section to enter after that. */
  datatype Result = Thrown | Done(reply: Reply, saves: seq<PlayerState>, follow: Follow)

  function Refused(kind: ErrorKind): Result {
    Done(Err(kind), [], Nothing)
  }

  /** The section ended as its function says, with this world and this room of the session. */
  ghost predicate Ends(o: Outcome, r: Result, w: World, room: string) {
    match o
    case Threw => r == Thrown
    case Outcome(w', room', reply, saves, follow, _) => r == Done(reply, saves, follow) && w == w' && room == room'
  }

  /** Every handler first turns away a session that has not logged in. */
  function IfConnected(pid: string, w: World, room: string, o: Outcome): Outcome {
    if pid == "" then Refuse(w, room, NotConnected) else o
  }

  function GroupCommand(w: World, pid: string, room: string, args: seq<string>): Outcome {
    if args == [] then Refuse(w, room, BadMessage)
    else if args[0] == "CREATE" then Sections.GroupCreate(w, pid, room, args)
    else if args[0] == "INVITE" then Sections.GroupInvite(w, pid, room, args)
    else if args[0] == "ACCEPT" || args[0] == "JOIN" then Sections.GroupAccept(w, pid, room, args)
    else if args[0] == "LEAVE" then Sections.GroupLeave(w, pid, room)
    else Refuse(w, room, BadMessage)
  }

  // ---- login and logout ----------------------------------------------------------------------

  /** How a login or logout section ends: the world, the session's player and room, and the result. */
  datatype LoginEnd = LoginEnd(world: World, player: string, room: string, result: Result)

  predicate CreateRefused(w: World, player: string, args: seq<string>, onDisk: bool) {
    player != "" || args == [] || !IsValidName(args[0]) || args[0] in w.players || onDisk
  }

  /** CREATE_CHARACTER: refused with its reason, or the name is reserved, the session logged in and the new
      character queued for saving. */
  function CreateSection(w: World, player: string, room: string, args: seq<string>, onDisk: bool): LoginEnd {
    if CreateRefused(w, player, args, onDisk) then
      LoginEnd(w, player, room, Refused(if player == "" && (args == [] || !IsValidName(args[0])) then BadMessage else NameInUse))
    else
      var w' := Reserve(w, args[0], if |args| > 1 then args[1] else "", JoinFrom(args, 2));
      LoginEnd(w', args[0], START_ROOM, Done(Ok, [w'.players[args[0]]], Nothing))
  }

  /** The first section of CONNECT only decides whether to go on. */
  function StartConnectSection(w: World, player: string, args: seq<string>): Result {
    if player != "" then Refused(NameInUse)
    else if args == [] || !IsValidName(args[0]) then Refused(BadMessage)
    else if args[0] in w.players then Refused(NameInUse)
    else Done(Ok, [], Nothing)
  }

  /** The second section of CONNECT: the name may have come online meanwhile. */
  function EnterSection(w: World, player: string, room: string, name: string, loaded: PlayerState): LoginEnd {
    if name in w.players then LoginEnd(w, player, room, Refused(NameInUse))
    else LoginEnd(Enter(w, name, loaded), name, loaded.room, Done(Ok, [], Nothing))
  }

  function StatusAtFirst(quest: Quest, npcs: map<string, Npc>): string {
    if AlreadyDone(quest, npcs) then COMPLETED else IN_PROGRESS
  }

  /** The statuses a player has once those of the quests in `seen` are there. */
  ghost predicate Initialized(w: World, p: PlayerState, seen: set<string>, status: map<string, string>) {
    && status.Keys == p.quests.Keys + seen && seen <= w.quests.Keys
    && forall q {:trigger status[q]} :: q in status ==>
         status[q] == if q in p.quests then p.quests[q] else StatusAtFirst(w.quests[q], w.npcs)
  }

  lemma NoneInitialized(w: World, p: PlayerState)
    ensures Initialized(w, p, {}, p.quests) && SetOf([]) == {}
  {
  }

  lemma OneMoreInitialized(w: World, p: PlayerState, seen: set<string>, status: map<string, string>, q: string)
    requires Initialized(w, p, seen, status) && q in w.quests
    ensures Initialized(w, p, seen + {q}, if q in status then status else status[q := StatusAtFirst(w.quests[q], w.npcs)])
  {
    hide StatusAtFirst;
  }

  lemma AllInitialized(w: World, p: PlayerState, status: map<string, string>)
    requires Initialized(w, p, w.quests.Keys, status)
    ensures p.(quests := status) == InitQuests(w, p)
  {
    hide AlreadyDone;
    assert status == InitQuests(w, p).quests;
  }

  /** What USE leaves of the world when a lookup throws: nothing is changed, but the item to be thrown at an
      NPC who turns out not to exist is gone. */
  function AfterThrowing(w: World, pid: string, args: seq<string>): World {
    if pid !in w.players || args == [] then w
    else
      var p := w.players[pid];
      var item := Resolve(p.inventory, ItemNames(w.items), args[0]);
      if item !in w.items || p.room !in w.rooms then w
      else WithPlayer(w, p.(inventory := Without(p.inventory, item)), pid)
  }

  class SharedWorld {
    var rooms: map<string, Room>
    var items: map<string, Item>
    var npcs: map<string, Npc>
    var players: map<string, PlayerState>
    var quests: map<string, Quest>
    var playerGroup: map<string, string>
    var groups: map<string, seq<string>>
    var pendingInvites: seq<Invite>

    ghost predicate Valid()
      reads this`pendingInvites
    {
      Sorted(pendingInvites)
    }

    /** The state the handlers share. */
    ghost function View(): World
      reads this
    {
      World(rooms, items, npcs, players, quests, playerGroup, groups, multiset(pendingInvites))
    }

    constructor ()
      ensures Valid() && View() == World(map[], map[], map[], map[], map[], map[], map[], multiset{})
    {
      rooms, items, npcs, players, quests := map[], map[], map[], map[], map[];
      playerGroup, groups, pendingInvites := map[], map[], [];
    }

    // ---- quests ----------------------------------------------------------------------------

    method AllTargetsDead(quest: Quest) returns (dead: bool)
      ensures dead <==> AllDead(quest.targets, npcs)
    {
      for i := 0 to |quest.targets|
        invariant AllDead(quest.targets[..i], npcs)
      {
        var n := quest.targets[i];
        if n !in npcs || npcs[n].hp > 0 { return false; }
      }
      return true;
    }

    method InitPlayerQuests(p: PlayerState) returns (p': PlayerState)
      ensures p' == InitQuests(View(), p)
    {
      hide Initialized, AllDead, InitQuests;
      var status := p.quests;
      var order := KeysInOrder(quests.Keys);
      NoneInitialized(View(), p);
      for i := 0 to |order|
        invariant Initialized(View(), p, SetOf(order[..i]), status)
      {
        var q := order[i];
        OneMoreInitialized(View(), p, SetOf(order[..i]), status, q);
        OneMoreElement(order, i);
        if q !in status {
          var dead := AllTargetsDead(quests[q]);
          status := status[q := if quests[q].kind.Defeat? && dead then COMPLETED else IN_PROGRESS];
        }
      }
      assert SetOf(order[..|order|]) == quests.Keys;
      p' := p.(quests := status);
      AllInitialized(View(), p, status);
    }

    method OnItemTaken(session: Session, item: string) returns (r: Result, ghost order: seq<string>)
      modifies this`players
      ensures IsOrderOf(order, quests.Keys)
      ensures Ends(Sections.OnItemTaken(old(View()), session.playerId, session.currentRoom, item, order),
                   r, View(), session.currentRoom)
    {
      var questOrder := KeysInOrder(quests.Keys);
      order := questOrder;
      var pid := session.playerId;
      if pid !in players { return Done(Ok, [], Nothing), order; }
      var p := players[pid];
      for i := 0 to |questOrder|
        invariant players == old(players)
        invariant FetchPass(players[pid], quests, item, questOrder) == FetchPass(p, quests, item, questOrder[i..])
      {
        var q := questOrder[i];
        assert questOrder[i..][1..] == questOrder[i + 1..];
        if quests[q].kind.Fetch? && quests[q].target == item && q in p.quests && p.quests[q] == IN_PROGRESS {
          p := p.(quests := p.quests[q := COMPLETED]);
          if quests[q].reward != "" {
            p := p.(inventory := p.inventory + [quests[q].reward]);
          }
        }
      }
      if p != players[pid] {
        players := players[pid := p];
        r := Done(Ok, [p], Nothing);
      } else {
        r := Done(Ok, [], Nothing);
      }
    }

    /** The players who still have the cleared quest open complete it, one after the other. */
    method CompleteForAll(quest: Quest, qid: string, playerOrder: seq<string>, saves: seq<PlayerState>)
      returns (more: seq<PlayerState>)
      requires IsOrderOf(playerOrder, players.Keys)
      modifies this`players
      ensures players.Keys == old(players.Keys)
      ensures Pass(players, more) == FlipPlayers(Pass(old(players), saves), qid, quest.reward, playerOrder)
    {
      more := saves;
      for i := 0 to |playerOrder|
        invariant players.Keys == old(players.Keys)
        invariant FlipPlayers(Pass(old(players), saves), qid, quest.reward, playerOrder)
               == FlipPlayers(Pass(players, more), qid, quest.reward, playerOrder[i..])
      {
        var pid := playerOrder[i];
        assert playerOrder[i..][1..] == playerOrder[i + 1..];
        if qid in players[pid].quests && players[pid].quests[qid] == IN_PROGRESS {
          var p := players[pid].(quests := players[pid].quests[qid := COMPLETED]);
          if quest.reward != "" {
            p := p.(inventory := p.inventory + [quest.reward]);
          }
          players, more := players[pid := p], more + [p];
        }
      }
    }

    method OnNpcDefeated(session: Session, npc: string)
      returns (r: Result, ghost questOrder: seq<string>, ghost playerOrder: seq<string>)
      modifies this`players
      ensures IsOrderOf(questOrder, quests.Keys) && IsOrderOf(playerOrder, old(players.Keys))
      ensures Ends(Sections.OnNpcDefeated(old(View()), session.currentRoom, npc, questOrder, playerOrder),
                   r, View(), session.currentRoom)
    {
      var qs := KeysInOrder(quests.Keys);
      var ps := KeysInOrder(players.Keys);
      questOrder, playerOrder := qs, ps;
      var saves: seq<PlayerState> := [];
      for i := 0 to |qs|
        invariant players.Keys == old(players.Keys)
        invariant DefeatPass(Pass(old(players), []), quests, npcs, npc, qs, ps)
               == DefeatPass(Pass(players, saves), quests, npcs, npc, qs[i..], ps)
      {
        var quest := quests[qs[i]];
        assert qs[i..][1..] == qs[i + 1..];
        if quest.kind.Defeat? && npc in quest.targets {
          var dead := AllTargetsDead(quest);
          if dead {
            saves := CompleteForAll(quest, qs[i], ps, saves);
          }
        }
      }
      r := Done(Ok, saves, Nothing);
    }

    // ---- movement and items ----------------------------------------------------------------

    method Move(session: Session, args: seq<string>) returns (r: Result)
      modifies this`players, session`currentRoom
      ensures
        var w, pid, room := old(View()), session.playerId, old(session.currentRoom);
        Ends(IfConnected(pid, w, room, Sections.Move(w, pid, room, args)), r, View(), session.currentRoom)
      ensures r.Thrown? ==> View() == old(View()) && session.currentRoom == old(session.currentRoom)
    {
      var pid := session.playerId;
      if pid == "" { return Refused(NotConnected); }
      if args == [] { return Refused(BadMessage); }
      if pid !in players || players[pid].room !in rooms { return Thrown; }
      var here := rooms[players[pid].room];
      if args[0] !in here.exits { return Refused(NoExit); }
      var newRoom := here.exits[args[0]];
      players := players[pid := players[pid].(room := newRoom)];
      session.currentRoom := newRoom;
      r := Done(Ok, if newRoom == "" then [] else [players[pid]], Nothing);
    }

    method Take(session: Session, args: seq<string>) returns (r: Result)
      modifies this`players, this`rooms
      ensures
        var w, pid, room := old(View()), session.playerId, session.currentRoom;
        Ends(IfConnected(pid, w, room, Sections.Take(w, pid, room, args)), r, View(), session.currentRoom)
      ensures r.Thrown? ==> View() == old(View())
    {
      var pid := session.playerId;
      if pid == "" { return Refused(NotConnected); }
      if args == [] { return Refused(BadMessage); }
      var ref := JoinTokens(args, 0);
      if pid !in players || players[pid].room !in rooms { return Thrown; }
      var where := players[pid].room;
      var item := ResolveRef(rooms[where].items, ItemNames(items), ref);
      if item == "" { return Refused(ItemNotFound); }
      var left := EraseAll(rooms[where].items, item);
      rooms := rooms[where := rooms[where].(items := left)];
      players := players[pid := players[pid].(inventory := players[pid].inventory + [item])];
      r := Done(Ok, [players[pid]], Taken(item));
    }

    method Drop(session: Session, args: seq<string>) returns (r: Result)
      modifies this`players, this`rooms
      ensures
        var w, pid, room := old(View()), session.playerId, session.currentRoom;
        Ends(IfConnected(pid, w, room, Sections.Drop(w, pid, room, args)), r, View(), session.currentRoom)
      ensures r.Thrown? ==> View() == old(View())
    {
      var pid := session.playerId;
      if pid == "" { return Refused(NotConnected); }
      if args == [] { return Refused(BadMessage); }
      var ref := JoinTokens(args, 0);
      if pid !in players || players[pid].room !in rooms { return Thrown; }
      var where := players[pid].room;
      var item := ResolveRef(players[pid].inventory, ItemNames(items), ref);
      if item == "" { return Refused(ItemNotInInventory); }
      var kept := EraseAll(players[pid].inventory, item);
      players := players[pid := players[pid].(inventory := kept)];
      rooms := rooms[where := rooms[where].(items := rooms[where].items + [item])];
      r := Done(Ok, [players[pid]], Nothing);
    }

    /** The NPC loses hp; one that dies is taken out of the room. */
    method Hurt(where: string, npc: string, damage: int)
      requires where in rooms && npc in npcs
      modifies this`npcs, this`rooms
      ensures View() == HurtNpc(old(View()), where, npc, damage)
    {
      npcs := npcs[npc := npcs[npc].(hp := Max(0, npcs[npc].hp - damage))];
      if npcs[npc].hp <= 0 {
        var standing := EraseAll(rooms[where].npcs, npc);
        rooms := rooms[where := rooms[where].(npcs := standing)];
      }
    }

    method Use(session: Session, args: seq<string>) returns (r: Result)
      modifies this`players, this`rooms, this`npcs
      ensures
        var w, pid, room := old(View()), session.playerId, session.currentRoom;
        Ends(IfConnected(pid, w, room, Sections.Use(w, pid, room, args)), r, View(), session.currentRoom)
      ensures r.Thrown? ==> View() == AfterThrowing(old(View()), session.playerId, args)
    {
      hide UseHeal, UseDamage;
      var pid := session.playerId;
      if pid == "" { return Refused(NotConnected); }
      if args == [] { return Refused(BadMessage); }
      var targetRef := JoinTokens(args, 1);
      if pid !in players { return Thrown; }
      if players[pid].hp <= 0 { return Refused(Dead); }
      var item := ResolveRef(players[pid].inventory, ItemNames(items), args[0]);
      if item == "" { return Refused(ItemNotInInventory); }
      if item !in items { return Thrown; }
      match items[item].effect {
        case Heal => r := UseToHeal(session, item);
        case Damage => r := UseOn(session, item, targetRef);
        case NoEffect => r := Refused(BadMessage);
      }
    }

    method UseToHeal(session: Session, item: string) returns (r: Result)
      requires session.playerId in players && item in items
      modifies this`players
      ensures
        var pid := session.playerId;
        r.Done? && Ends(UseHeal(old(View()), old(players[pid]), pid, session.currentRoom, item), r, View(), session.currentRoom)
    {
      var p := players[session.playerId];
      var kept := EraseAll(p.inventory, item);
      p := p.(inventory := kept, hp := Min(p.maxHp, p.hp + items[item].amount));
      players := players[session.playerId := p];
      r := Done(Ok, [p], Nothing);
    }

    method UseOn(session: Session, item: string, targetRef: string) returns (r: Result)
      requires session.playerId in players && item in items
      modifies this`players, this`rooms, this`npcs
      ensures
        var pid := session.playerId;
        Ends(UseDamage(old(View()), old(players[pid]), pid, session.currentRoom, item, targetRef), r, View(), session.currentRoom)
      ensures
        var w, pid := old(View()), session.playerId;
        var p := w.players[pid];
        r.Thrown? ==> View() == if p.room !in w.rooms then w else WithPlayer(w, p.(inventory := Without(p.inventory, item)), pid)
    {
      var pid := session.playerId;
      if targetRef == "" { return Refused(BadMessage); }
      var where := players[pid].room;
      if where !in rooms { return Thrown; }
      var npc := ResolveRef(rooms[where].npcs, NpcNames(npcs), targetRef);
      if npc == "" { return Refused(NpcNotFound); }
      var kept := EraseAll(players[pid].inventory, item);
      players := players[pid := players[pid].(inventory := kept)];
      if npc !in npcs { return Thrown; }
      Hurt(where, npc, items[item].amount);
      r := Done(Ok, [players[pid]], if npcs[npc].hp <= 0 then Defeated(npc) else Nothing);
    }

    // ---- combat ----------------------------------------------------------------------------

    method Attack(session: Session, args: seq<string>, roll: Roll) returns (r: Result)
      modifies this`players, this`rooms, this`npcs, session`currentRoom
      ensures
        var w, pid, room := old(View()), session.playerId, old(session.currentRoom);
        Ends(IfConnected(pid, w, room, Sections.Attack(w, pid, room, args, roll)), r, View(), session.currentRoom)
      ensures r.Thrown? ==> View() == old(View()) && session.currentRoom == old(session.currentRoom)
    {
      var pid := session.playerId;
      if pid == "" { return Refused(NotConnected); }
      if args == [] { return Refused(BadMessage); }
      var ref := JoinTokens(args, 0);
      if pid !in players { return Thrown; }
      if players[pid].hp <= 0 { return Refused(Dead); }
      var where := players[pid].room;
      if where !in rooms { return Thrown; }
      var npc := ResolveRef(rooms[where].npcs, NpcNames(npcs), ref);
      if npc == "" { return Refused(NpcNotFound); }
      if npc !in npcs { return Thrown; }
      r := Strike(session, where, npc, roll);
    }

    /** Blow, counter-blow and, if it comes to that, the respawn. */
    method Strike(session: Session, where: string, npc: string, roll: Roll) returns (r: Result)
      requires session.playerId in players && where == players[session.playerId].room && where in rooms && npc in npcs
      modifies this`players, this`rooms, this`npcs, session`currentRoom
      ensures
        var w, pid := old(View()), session.playerId;
        Ends(Sections.Strike(w, w.players[pid], pid, old(session.currentRoom), npc, roll), r, View(), session.currentRoom)
    {
      var roomId := rooms[where].id;
      Hurt(where, npc, if roll.hit then roll.damage else 0);
      var attacker := players[session.playerId];
      if npcs[npc].hp > 0 {
        attacker := attacker.(hp := Max(0, attacker.hp - (if roll.countered then roll.counterDamage else 0)));
      }
      attacker := attacker.(lastTarget := npc);
      if attacker.hp <= 0 {
        attacker := attacker.(hp := RESPAWN_HP, room := START_ROOM);
        session.currentRoom := START_ROOM;
      }
      players := players[session.playerId := attacker];
      r := Done(Ok, [attacker], if roomId != "" && npcs[npc].hp <= 0 then Defeated(npc) else Nothing);
    }

    // ---- dialogue --------------------------------------------------------------------------

    method Talk(session: Session, args: seq<string>) returns (r: Result)
      modifies this`players
      ensures
        var w, pid, room := old(View()), session.playerId, session.currentRoom;
        Ends(IfConnected(pid, w, room, Sections.Talk(w, pid, room, args)), r, View(), session.currentRoom)
      ensures r.Thrown? ==> View() == old(View())
    {
      var pid := session.playerId;
      if pid == "" { return Refused(NotConnected); }
      if args == [] { return Refused(BadMessage); }
      var ref := JoinTokens(args, 0);
      if pid !in players || players[pid].room !in rooms { return Thrown; }
      var p := players[pid];
      var npc := ResolveRef(rooms[p.room].npcs, NpcNames(npcs), ref);
      if npc == "" { return Refused(NpcNotFound); }
      if npc !in npcs { return Thrown; }
      var unlocked := Unlocked(npcs[npc], p);
      var total := |npcs[npc].dialogue| + if unlocked then |npcs[npc].bonusDialogue| else 0;
      var progress := if npc in p.progress then p.progress[npc] else 0;
      if total > 0 {
        progress := (progress % total + 1) % total;
      }
      players := players[pid := p.(progress := p.progress[npc := progress])];
      r := Done(Ok, [players[pid]], Nothing);
    }

    static method Unlocked(npc: Npc, p: PlayerState) returns (unlocked: bool)
      ensures unlocked <==> BonusUnlocked(npc, p)
    {
      unlocked := npc.unlockQuests != [];
      for i := 0 to |npc.unlockQuests|
        invariant unlocked <==> npc.unlockQuests != []
        invariant forall q :: q in npc.unlockQuests[..i] ==> q in p.quests && p.quests[q] == COMPLETED
      {
        var q := npc.unlockQuests[i];
        if q !in p.quests || p.quests[q] != COMPLETED { return false; }
      }
    }

    // ---- groups ----------------------------------------------------------------------------

    /** `player_group[pid]`, which creates an empty entry when there is none. */
    method TouchGroup(pid: string) returns (group: string)
      modifies this`playerGroup
      ensures View() == Touched(old(View()), pid) && group == playerGroup[pid]
    {
      if pid !in playerGroup {
        playerGroup := playerGroup[pid := ""];
      }
      group := playerGroup[pid];
      assert playerGroup == Touched(old(View()), pid).playerGroup;
    }

    method LeaveGroup(pid: string)
      modifies this`playerGroup, this`groups
      ensures View() == Sections.LeaveGroup(old(View()), pid)
    {
      if pid !in playerGroup || playerGroup[pid] == "" { return; }
      var group := playerGroup[pid];
      var members := EraseAll(if group in groups then groups[group] else [], pid);
      if members == [] {
        groups := groups - {group};
      } else {
        groups := groups[group := members];
      }
      playerGroup := playerGroup - {pid};
    }

    method GroupCreate(session: Session, args: seq<string>) returns (r: Result)
      requires session.playerId != ""
      modifies this`playerGroup, this`groups
      ensures Ends(Sections.GroupCreate(old(View()), session.playerId, session.currentRoom, args),
                   r, View(), session.currentRoom)
    {
      var pid := session.playerId;
      var current := TouchGroup(pid);
      if current != "" { return Refused(AlreadyInGroup); }
      var requested := if |args| > 1 then args[1] else pid;
      if requested in groups { return Refused(NameInUse); }
      playerGroup := playerGroup[pid := requested];
      groups := groups[requested := [pid]];
      r := Done(Ok, [], Nothing);
    }

    method GroupInvite(session: Session, args: seq<string>) returns (r: Result)
      requires Valid() && session.playerId != ""
      modifies this`playerGroup, this`pendingInvites
      ensures Valid()
      ensures Ends(Sections.GroupInvite(old(View()), session.playerId, session.currentRoom, args),
                   r, View(), session.currentRoom)
    {
      var pid := session.playerId;
      if |args| < 2 || args[1] == pid { return Refused(BadMessage); }
      var target := args[1];
      if target !in players { return Refused(PlayerNotFound); }
      var group := TouchGroup(pid);
      if group == "" { return Refused(NotInGroup); }
      pendingInvites := Emplace(pendingInvites, (target, group));
      r := Done(Ok, [], Nothing);
    }

    method Enrol(pid: string, group: string)
      modifies this`playerGroup, this`groups
      ensures
        var w := old(View());
        View() == w.(groups := w.groups[group := MembersOf(w.groups, group) + [pid]], playerGroup := w.playerGroup[pid := group])
    {
      groups := groups[group := (if group in groups then groups[group] else []) + [pid]];
      playerGroup := playerGroup[pid := group];
    }

    method GroupAccept(session: Session, args: seq<string>) returns (r: Result)
      requires Valid() && session.playerId != ""
      modifies this`playerGroup, this`groups, this`pendingInvites
      ensures Valid()
      ensures Ends(Sections.GroupAccept(old(View()), session.playerId, session.currentRoom, args),
                   r, View(), session.currentRoom)
    {
      hide Sections.LeaveGroup, HasKeyFrom, MembersOf, Sorted;
      var pid := session.playerId;
      if |args| < 2 { return Refused(BadMessage); }
      var atEnd, found, k := FindInvite(pendingInvites, pid, args[1]);
      if atEnd {
        assert !found by { NoKeyNoInvite(multiset(pendingInvites), pid, args[1]); }
        return Refused(BadMessage);
      }
      if !found { return Refused(Internal); }
      var group := pendingInvites[k].1;
      LeaveGroup(pid);
      Enrol(pid, group);
      pendingInvites := EraseAt(pendingInvites, k);
      r := Done(Ok, [], Nothing);
    }

    static lemma NoKeyNoInvite(invites: multiset<Invite>, pid: string, group: string)
      requires !HasKeyFrom(invites, pid)
      ensures (pid, group) !in invites
    {
      BeforeIsStrict(pid, pid);
      assert (pid, group).0 == pid;
    }

    method GroupLeave(session: Session) returns (r: Result)
      requires session.playerId != ""
      modifies this`playerGroup, this`groups
      ensures Ends(Sections.GroupLeave(old(View()), session.playerId, session.currentRoom), r, View(), session.currentRoom)
    {
      var _ := TouchGroup(session.playerId);
      LeaveGroup(session.playerId);
      r := Done(Ok, [], Nothing);
    }

    /** GROUP and its subcommands. */
    method Group(session: Session, args: seq<string>) returns (r: Result)
      requires Valid()
      modifies this`playerGroup, this`groups, this`pendingInvites
      ensures Valid()
      ensures
        var w, pid, room := old(View()), session.playerId, session.currentRoom;
        Ends(IfConnected(pid, w, room, GroupCommand(w, pid, room, args)), r, View(), room)
    {
      if session.playerId == "" { return Refused(NotConnected); }
      if args == [] { return Refused(BadMessage); }
      if args[0] == "CREATE" {
        r := GroupCreate(session, args);
      } else if args[0] == "INVITE" {
        r := GroupInvite(session, args);
      } else if args[0] == "ACCEPT" || args[0] == "JOIN" {
        r := GroupAccept(session, args);
      } else if args[0] == "LEAVE" {
        r := GroupLeave(session);
      } else {
        r := Refused(BadMessage);
      }
    }

    // ---- login and logout ------------------------------------------------------------------

    /** CREATE_CHARACTER up to the end of its critical section; `onDisk` is what the file system says. */
    method CreateCharacter(session: Session, args: seq<string>, onDisk: bool) returns (r: Result)
      modifies this`players, session
      ensures LoginEnd(View(), session.playerId, session.currentRoom, r)
           == CreateSection(old(View()), old(session.playerId), old(session.currentRoom), args, onDisk)
    {
      if session.playerId != "" { return Refused(NameInUse); }
      if args == [] { return Refused(BadMessage); }
      var name := args[0];
      var race := if |args| > 1 then args[1] else "";
      var attributes := JoinTokens(args, 2);
      if !IsValidName(name) { return Refused(BadMessage); }
      if name in players || onDisk { return Refused(NameInUse); }
      var p := InitPlayerQuests(NewCharacter(name, race, attributes));
      players := players[name := p];
      session.playerId, session.currentRoom := name, START_ROOM;
      r := Done(Ok, [p], Nothing);
    }

    /** CONNECT up to the end of its first critical section: on Ok its thread goes on to read the file. */
    method StartConnect(session: Session, args: seq<string>) returns (r: Result)
      ensures r == StartConnectSection(View(), session.playerId, args)
    {
      if session.playerId != "" { return Refused(NameInUse); }
      if args == [] { return Refused(BadMessage); }
      if !IsValidName(args[0]) { return Refused(BadMessage); }
      if args[0] in players { return Refused(NameInUse); }
      r := Done(Ok, [], Nothing);
    }

    /** The second critical section of CONNECT, with the state read from the character file. */
    method EnterWorld(session: Session, name: string, loaded: PlayerState) returns (r: Result)
      modifies this`players, session
      ensures LoginEnd(View(), session.playerId, session.currentRoom, r)
           == EnterSection(old(View()), old(session.playerId), old(session.currentRoom), name, loaded)
    {
      if name in players { return Refused(NameInUse); }
      var p := InitPlayerQuests(loaded);
      players := players[name := p];
      session.playerId, session.currentRoom := name, loaded.room;
      r := Done(Ok, [], Nothing);
    }

    /** The critical section of the disconnect handler; what it returns is the state to save, if any. */
    method Disconnect(session: Session) returns (finals: seq<PlayerState>)
      modifies this`players, this`playerGroup, this`groups
      ensures View() == if session.playerId == "" then old(View()) else Depart(old(View()), session.playerId)
      ensures finals == if session.playerId != "" && session.playerId in old(players) then [old(players)[session.playerId]] else []
    {
      var pid := session.playerId;
      finals := [];
      if pid == "" { return; }
      if pid in players {
        finals := [players[pid]];
      }
      players := players - {pid};
      LeaveGroup(pid);
    }
  }
}
