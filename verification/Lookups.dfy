/** The loader's referential checks alone make every lookup of every handler succeed, in every interleaved
    run: whatever the world file says about rewards, hp, amounts or where its NPCs stand. */
module Lookups {
  import opened Lists
  import opened WorldModel
  import opened Sections
  import opened WorldRules
  import opened Server
  import opened Invariants
  import opened Commits
  import opened StatesProof
  import opened LoginProof
  import opened StepShapes

  // ---- what lookups rely on ------------------------------------------------------------------

  /** Keys and exits as loaded; rooms list known items and NPCs only. */
  ghost predicate MapShape(base: World, rooms: map<string, Room>, npcs: map<string, Npc>) {
    && rooms.Keys == base.rooms.Keys && npcs.Keys == base.npcs.Keys
    && (forall r {:trigger rooms[r]} :: r in rooms ==> RoomShape(base, rooms[r], r))
  }

  ghost predicate RoomShape(base: World, room: Room, r: string)
    requires r in base.rooms
  {
    && room.exits == base.rooms[r].exits
    && (forall i :: i in room.items ==> i in base.items)
    && (forall n :: n in room.npcs ==> n in base.npcs)
  }

  ghost predicate WorldShape(base: World, w: World) {
    w.items == base.items && w.quests == base.quests && MapShape(base, w.rooms, w.npcs)
  }

  /** In a room that exists, with items that exist. */
  ghost predicate Placed(base: World, p: PlayerState) {
    p.room in base.rooms && forall i :: i in p.inventory ==> i in base.items
  }

  ghost predicate AllPlaced(base: World, players: map<string, PlayerState>) {
    forall p {:trigger players[p]} :: p in players ==> Placed(base, players[p])
  }

  ghost predicate SavesPlaced(base: World, saves: seq<PlayerState>) {
    forall i {:trigger saves[i]} :: 0 <= i < |saves| ==> Placed(base, saves[i])
  }

  ghost predicate PcPlaced(base: World, pc: Pc) {
    && (pc.Found? ==> Placed(base, pc.state))
    && SavesPlaced(base, PendingSaves(pc))
  }

  ghost predicate PcsPlaced(base: World, sessions: map<nat, Session>) {
    forall sid {:trigger sessions[sid]} :: sid in sessions ==> PcPlaced(base, sessions[sid].pc)
  }

  ghost predicate LookupInv(base: World, s: Server) {
    && !s.threw
    && WorldShape(base, s.world)
    && AllPlaced(base, s.world.players) && AllPlaced(base, s.disk) && PcsPlaced(base, s.sessions)
    && LoginInv(s.sessions, s.world.players, s.owner)
  }

  // ---- sections ------------------------------------------------------------------------------

  /** A section that fails no lookup and keeps what lookups rely on. */
  ghost predicate Steady(base: World, w: World, pid: string, o: Outcome) {
    && KeepsRooms(w, pid, o)
    && WorldShape(base, o.world) && AllPlaced(base, o.world.players) && SavesPlaced(base, o.saves)
  }

  /** A section whose only player to change is its own. */
  lemma OneMoves(base: World, w: World, pid: string, o: Outcome, p': PlayerState)
    requires AllPlaced(base, w.players) && pid in w.players && Placed(base, p')
    requires o.Outcome? && o.world.players == w.players[pid := p'] && o.room == p'.room && WorldShape(base, o.world)
    requires o.saves == [] || o.saves == [p']
    ensures Steady(base, w, pid, o)
  {
    hide WorldShape, Placed;
  }

  lemma NobodyMoves(base: World, w: World, pid: string, o: Outcome)
    requires AllPlaced(base, w.players) && pid in w.players && WorldShape(base, w)
    requires o.Outcome? && o.world.players == w.players && o.room == w.players[pid].room && o.saves == []
    requires o.world.rooms == w.rooms && o.world.npcs == w.npcs && o.world.items == w.items && o.world.quests == w.quests
    ensures Steady(base, w, pid, o)
  {
    hide MapShape, Placed;
  }

  /** Where a handler finds the world. */
  ghost predicate Finds(base: World, w: World, pid: string, room: string) {
    && WorldShape(base, w) && AllPlaced(base, w.players)
    && pid in w.players && room == w.players[pid].room
  }

  lemma RoomFound(base: World, w: World, pid: string, room: string)
    requires Finds(base, w, pid, room)
    ensures Placed(base, w.players[pid]) && room in w.rooms && RoomShape(base, w.rooms[room], room)
    ensures w.npcs.Keys == base.npcs.Keys && w.items == base.items
  {
  }

  lemma RoomChanged(base: World, rooms: map<string, Room>, npcs: map<string, Npc>, r: string, room': Room)
    requires MapShape(base, rooms, npcs) && r in rooms && RoomShape(base, room', r)
    ensures MapShape(base, rooms[r := room'], npcs)
  {
    hide RoomShape;
  }

  lemma NpcChanged(base: World, rooms: map<string, Room>, npcs: map<string, Npc>, n: string, npc': Npc)
    requires MapShape(base, rooms, npcs) && n in npcs
    ensures MapShape(base, rooms, npcs[n := npc'])
  {
    hide RoomShape;
  }

  lemma MoveSteady(base: World, w: World, pid: string, room: string, args: seq<string>)
    requires Finds(base, w, pid, room) && ExitsLead(base)
    ensures Steady(base, w, pid, Move(w, pid, room, args))
  {
    hide MapShape, Steady, AllPlaced;
    RoomFound(base, w, pid, room);
    var o := Move(w, pid, room, args);
    if args != [] && args[0] in w.rooms[room].exits {
      var target := w.rooms[room].exits[args[0]];
      assert target == base.rooms[room].exits[args[0]];
      OneMoves(base, w, pid, o, w.players[pid].(room := target));
    } else {
      NobodyMoves(base, w, pid, o);
    }
  }

  lemma TakeSteady(base: World, w: World, pid: string, room: string, args: seq<string>)
    requires Finds(base, w, pid, room)
    ensures Steady(base, w, pid, Take(w, pid, room, args))
  {
    hide MapShape, Steady, AllPlaced;
    RoomFound(base, w, pid, room);
    var o, here, p := Take(w, pid, room, args), w.rooms[room], w.players[pid];
    var item := Resolve(here.items, ItemNames(w.items), JoinFrom(args, 0));
    if args != [] && item != "" {
      WithoutMembers(here.items, item);
      RoomChanged(base, w.rooms, w.npcs, room, here.(items := Without(here.items, item)));
      OneMoves(base, w, pid, o, p.(inventory := p.inventory + [item]));
    } else {
      NobodyMoves(base, w, pid, o);
    }
  }

  lemma DropSteady(base: World, w: World, pid: string, room: string, args: seq<string>)
    requires Finds(base, w, pid, room)
    ensures Steady(base, w, pid, Drop(w, pid, room, args))
  {
    hide MapShape, Steady, AllPlaced;
    RoomFound(base, w, pid, room);
    var o, here, p := Drop(w, pid, room, args), w.rooms[room], w.players[pid];
    var item := Resolve(p.inventory, ItemNames(w.items), JoinFrom(args, 0));
    if args != [] && item != "" {
      WithoutMembers(p.inventory, item);
      RoomChanged(base, w.rooms, w.npcs, room, here.(items := here.items + [item]));
      OneMoves(base, w, pid, o, p.(inventory := Without(p.inventory, item)));
    } else {
      NobodyMoves(base, w, pid, o);
    }
  }

  lemma HurtShape(base: World, w: World, where: string, npc: string, damage: int)
    requires WorldShape(base, w) && where in w.rooms && npc in w.npcs
    ensures WorldShape(base, HurtNpc(w, where, npc, damage))
    ensures HurtNpc(w, where, npc, damage).players == w.players
  {
    hide MapShape, RoomShape;
    var w' := HurtNpc(w, where, npc, damage);
    NpcChanged(base, w.rooms, w.npcs, npc, w'.npcs[npc]);
    if w'.npcs[npc].hp <= 0 {
      VacatedShape(base, w.rooms, w.npcs, where, npc);
      RoomChanged(base, w.rooms, w'.npcs, where, Vacated(w.rooms, where, npc)[where]);
    }
  }

  lemma VacatedShape(base: World, rooms: map<string, Room>, npcs: map<string, Npc>, where: string, npc: string)
    requires MapShape(base, rooms, npcs) && where in rooms
    ensures RoomShape(base, Vacated(rooms, where, npc)[where], where)
  {
    WithoutMembers(rooms[where].npcs, npc);
  }

  lemma UseSteady(base: World, w: World, pid: string, room: string, args: seq<string>)
    requires Finds(base, w, pid, room)
    ensures Steady(base, w, pid, Use(w, pid, room, args))
  {
    hide MapShape, Steady, AllPlaced, UseHeal, UseDamage, WorldShape;
    RoomFound(base, w, pid, room);
    var o, p := Use(w, pid, room, args), w.players[pid];
    if args == [] || p.hp <= 0 {
      NobodyMoves(base, w, pid, o);
    } else {
      var item := Resolve(p.inventory, ItemNames(w.items), args[0]);
      if item == "" {
        NobodyMoves(base, w, pid, o);
      } else {
        match w.items[item].effect {
          case Heal => HealSteady(base, w, pid, room, item);
          case Damage => ThrowSteady(base, w, pid, room, item, JoinFrom(args, 1));
          case NoEffect => NobodyMoves(base, w, pid, o);
        }
      }
    }
  }

  lemma HealSteady(base: World, w: World, pid: string, room: string, item: string)
    requires Finds(base, w, pid, room) && item in w.items
    ensures Steady(base, w, pid, UseHeal(w, w.players[pid], pid, room, item))
  {
    hide MapShape, Steady, AllPlaced;
    RoomFound(base, w, pid, room);
    var p := w.players[pid];
    WithoutMembers(p.inventory, item);
    OneMoves(base, w, pid, UseHeal(w, p, pid, room, item),
             p.(inventory := Without(p.inventory, item), hp := Min(p.maxHp, p.hp + w.items[item].amount)));
  }

  lemma ThrowSteady(base: World, w: World, pid: string, room: string, item: string, targetRef: string)
    requires Finds(base, w, pid, room) && item in w.items
    ensures Steady(base, w, pid, UseDamage(w, w.players[pid], pid, room, item, targetRef))
  {
    hide MapShape, Steady, AllPlaced, HurtNpc;
    RoomFound(base, w, pid, room);
    var p := w.players[pid];
    var o := UseDamage(w, p, pid, room, item, targetRef);
    var npc := Resolve(w.rooms[room].npcs, NpcNames(w.npcs), targetRef);
    if targetRef == "" || npc == "" {
      NobodyMoves(base, w, pid, o);
    } else {
      var user := p.(inventory := Without(p.inventory, item));
      WithoutMembers(p.inventory, item);
      HurtShape(base, WithPlayer(w, user, pid), room, npc, w.items[item].amount);
      OneMoves(base, w, pid, o, user);
    }
  }

  lemma AttackSteady(base: World, w: World, pid: string, room: string, args: seq<string>, roll: Roll)
    requires Finds(base, w, pid, room) && START_ROOM in base.rooms
    ensures Steady(base, w, pid, Attack(w, pid, room, args, roll))
  {
    hide MapShape, Steady, AllPlaced, Strike;
    RoomFound(base, w, pid, room);
    var o := Attack(w, pid, room, args, roll);
    var npc := Resolve(w.rooms[room].npcs, NpcNames(w.npcs), JoinFrom(args, 0));
    if args == [] || w.players[pid].hp <= 0 || npc == "" {
      NobodyMoves(base, w, pid, o);
    } else {
      StrikeSteady(base, w, pid, room, npc, roll);
    }
  }

  lemma StrikeSteady(base: World, w: World, pid: string, room: string, npc: string, roll: Roll)
    requires Finds(base, w, pid, room) && START_ROOM in base.rooms && room in w.rooms && npc in w.npcs
    ensures Steady(base, w, pid, Strike(w, w.players[pid], pid, room, npc, roll))
  {
    hide MapShape, Steady, AllPlaced, HurtNpc;
    RoomFound(base, w, pid, room);
    var o := Strike(w, w.players[pid], pid, room, npc, roll);
    HurtShape(base, w, room, npc, if roll.hit then roll.damage else 0);
    OneMoves(base, w, pid, o, o.world.players[pid]);
  }

  lemma TalkSteady(base: World, w: World, pid: string, room: string, args: seq<string>)
    requires Finds(base, w, pid, room)
    ensures Steady(base, w, pid, Talk(w, pid, room, args))
  {
    hide MapShape, Steady, AllPlaced, NextProgress;
    RoomFound(base, w, pid, room);
    var o, p := Talk(w, pid, room, args), w.players[pid];
    var npc := Resolve(w.rooms[room].npcs, NpcNames(w.npcs), JoinFrom(args, 0));
    if args != [] && npc != "" {
      OneMoves(base, w, pid, o, p.(progress := p.progress[npc := NextProgress(w.npcs[npc], p, npc)]));
    } else {
      NobodyMoves(base, w, pid, o);
    }
  }

  lemma RunSteady(base: World, w: World, pid: string, room: string, command: Command)
    requires Checked(base) && Finds(base, w, pid, room)
    ensures Steady(base, w, pid, Run(w, pid, room, command))
  {
    hide ItemsKnown, ItemsUnique, NpcsKnown, QuestsKnown, UnlocksKnown, ExitsLead, Finds, Steady, Move, Take, Drop, Use, Attack, Talk,
         GroupCreate, GroupInvite, GroupAccept, GroupLeave;
    match command {
      case MoveTo(args) => MoveSteady(base, w, pid, room, args);
      case TakeItem(args) => TakeSteady(base, w, pid, room, args);
      case DropItem(args) => DropSteady(base, w, pid, room, args);
      case UseItem(args) => UseSteady(base, w, pid, room, args);
      case AttackNpc(args, roll) => AttackSteady(base, w, pid, room, args, roll);
      case TalkTo(args) => TalkSteady(base, w, pid, room, args);
      case Ask => AskSteady(base, w, pid, room);
      case CreateGroup(args) => GroupsSteady(base, w, pid, room, args);
      case Invite(args) => GroupsSteady(base, w, pid, room, args);
      case AcceptInvite(args) => GroupsSteady(base, w, pid, room, args);
      case QuitGroup => GroupsSteady(base, w, pid, room, []);
    }
  }

  lemma AskSteady(base: World, w: World, pid: string, room: string)
    requires Finds(base, w, pid, room)
    ensures Steady(base, w, pid, Query(w, pid, room))
  {
    hide MapShape, Steady, AllPlaced;
    NobodyMoves(base, w, pid, Query(w, pid, room));
  }

  lemma GroupsSteady(base: World, w: World, pid: string, room: string, args: seq<string>)
    requires Finds(base, w, pid, room)
    ensures Steady(base, w, pid, GroupCreate(w, pid, room, args)) && Steady(base, w, pid, GroupInvite(w, pid, room, args))
    ensures Steady(base, w, pid, GroupAccept(w, pid, room, args)) && Steady(base, w, pid, GroupLeave(w, pid, room))
  {
    hide MapShape, Steady, AllPlaced, GroupCreate, GroupInvite, GroupAccept, GroupLeave;
    GroupCommandsOnly(w, pid, room, args);
    NobodyMoves(base, w, pid, GroupCreate(w, pid, room, args));
    NobodyMoves(base, w, pid, GroupInvite(w, pid, room, args));
    NobodyMoves(base, w, pid, GroupAccept(w, pid, room, args));
    NobodyMoves(base, w, pid, GroupLeave(w, pid, room));
  }

  // ---- quests, rewards included --------------------------------------------------------------

  ghost predicate RewardsKnown(base: World, quests: map<string, Quest>) {
    forall q {:trigger quests[q]} :: q in quests && quests[q].reward != "" ==> quests[q].reward in base.items
  }

  lemma CompletePlaced(base: World, p: PlayerState, q: string, reward: string)
    requires Placed(base, p) && (reward != "" ==> reward in base.items)
    ensures Placed(base, Complete(p, q, reward)) && Complete(p, q, reward).room == p.room
  {
  }

  lemma {:induction false} FetchPlaced(base: World, p: PlayerState, quests: map<string, Quest>, item: string, order: seq<string>)
    requires Placed(base, p) && RewardsKnown(base, quests)
    ensures Placed(base, FetchPass(p, quests, item, order)) && FetchPass(p, quests, item, order).room == p.room
    decreases |order|
  {
    hide Placed, Complete, IsOpen;
    if order != [] {
      var q := order[0];
      if q in quests && quests[q].kind.Fetch? && quests[q].target == item && IsOpen(p, q) {
        CompletePlaced(base, p, q, quests[q].reward);
        FetchPlaced(base, Complete(p, q, quests[q].reward), quests, item, order[1..]);
      } else {
        FetchPlaced(base, p, quests, item, order[1..]);
      }
    }
  }

  /** A pass over the players from `players`: same players, same rooms, everything placed. */
  ghost predicate PassPlaced(base: World, players: map<string, PlayerState>, pass: Pass) {
    && pass.players.Keys == players.Keys
    && (forall p {:trigger pass.players[p]} :: p in players ==> pass.players[p].room == players[p].room)
    && AllPlaced(base, pass.players) && SavesPlaced(base, pass.saves)
  }

  lemma FlipPlaced(base: World, players: map<string, PlayerState>, pass: Pass, q: string, reward: string, pid: string)
    requires PassPlaced(base, players, pass) && (reward != "" ==> reward in base.items)
    ensures PassPlaced(base, players, FlipPlayer(pass, q, reward, pid))
  {
    hide Placed, Complete, IsOpen;
    if pid in pass.players && IsOpen(pass.players[pid], q) {
      CompletePlaced(base, pass.players[pid], q, reward);
    }
  }

  lemma {:induction false} FlipsPlaced(
    base: World, players: map<string, PlayerState>, pass: Pass, q: string, reward: string, order: seq<string>)
    requires PassPlaced(base, players, pass) && (reward != "" ==> reward in base.items)
    ensures PassPlaced(base, players, FlipPlayers(pass, q, reward, order))
    decreases |order|
  {
    hide PassPlaced, FlipPlayer;
    if order != [] {
      FlipPlaced(base, players, pass, q, reward, order[0]);
      FlipsPlaced(base, players, FlipPlayer(pass, q, reward, order[0]), q, reward, order[1..]);
    }
  }

  lemma {:induction false} DefeatsPlaced(
    base: World, players: map<string, PlayerState>, pass: Pass, quests: map<string, Quest>, npcs: map<string, Npc>, npc: string,
    questOrder: seq<string>, playerOrder: seq<string>)
    requires PassPlaced(base, players, pass) && RewardsKnown(base, quests)
    ensures PassPlaced(base, players, DefeatPass(pass, quests, npcs, npc, questOrder, playerOrder))
    decreases |questOrder|
  {
    hide PassPlaced, FlipPlayers;
    if questOrder != [] {
      var q := questOrder[0];
      if Cleared(quests, npcs, npc, q) {
        FlipsPlaced(base, players, pass, q, quests[q].reward, playerOrder);
      }
      DefeatsPlaced(base, players, DefeatOne(pass, quests, npcs, npc, q, playerOrder), quests, npcs, npc, questOrder[1..], playerOrder);
    }
  }

  lemma TakenSteady(base: World, w: World, pid: string, room: string, item: string, order: seq<string>)
    requires Finds(base, w, pid, room) && RewardsKnown(base, w.quests)
    ensures Steady(base, w, pid, OnItemTaken(w, pid, room, item, order))
  {
    hide MapShape, Steady, RewardsKnown, FetchPass;
    var o := OnItemTaken(w, pid, room, item, order);
    assert Placed(base, w.players[pid]);
    FetchPlaced(base, w.players[pid], w.quests, item, order);
    if FetchPass(w.players[pid], w.quests, item, order) == w.players[pid] {
      NobodyMoves(base, w, pid, o);
    } else {
      OneMoves(base, w, pid, o, FetchPass(w.players[pid], w.quests, item, order));
    }
  }

  lemma DefeatedSteady(
    base: World, w: World, pid: string, room: string, npc: string, questOrder: seq<string>, playerOrder: seq<string>)
    requires Finds(base, w, pid, room) && RewardsKnown(base, w.quests)
    ensures Steady(base, w, pid, OnNpcDefeated(w, room, npc, questOrder, playerOrder))
  {
    hide MapShape, RewardsKnown, DefeatPass, Placed;
    DefeatsPlaced(base, w.players, Pass(w.players, []), w.quests, w.npcs, npc, questOrder, playerOrder);
  }

  lemma LoadedRewards(base: World)
    requires Checked(base)
    ensures RewardsKnown(base, base.quests)
  {
    hide ExitsLead, ItemsKnown, ItemsUnique, NpcsKnown, UnlocksKnown;
  }

  // ---- every step ----------------------------------------------------------------------------

  lemma SessionPlaced(base: World, sessions: map<nat, Session>, sid: nat, session: Session)
    requires PcsPlaced(base, sessions) && PcPlaced(base, session.pc)
    ensures PcsPlaced(base, sessions[sid := session])
  {
    hide PcPlaced;
  }

  lemma CommitLooksUp(base: World, s: Server, sid: nat, o: Outcome, event: GroupEvent)
    requires LookupInv(base, s) && sid in s.sessions && Live(s.sessions[sid])
    requires Steady(base, s.world, s.sessions[sid].player, o)
    ensures LookupInv(base, Commit(s, sid, o, event))
  {
    hide WorldShape, AllPlaced, PcsPlaced, LoginInv, SavesPlaced, Commit, Moved, Recorded;
    CommitLogin(s, sid, o, event);
    CommitShape(s, sid, o, event);
    AfterPlaced(base, o.saves, o.follow);
    SessionPlaced(base, s.sessions, sid, s.sessions[sid].(room := o.room, pc := After(o.saves, o.follow)));
  }

  lemma AfterPlaced(base: World, saves: seq<PlayerState>, follow: Follow)
    requires SavesPlaced(base, saves)
    ensures PcPlaced(base, After(saves, follow))
  {
    hide Placed;
  }

  /** A session that is logged in and not leaving finds what its handlers look up. */
  lemma LiveFinds(base: World, s: Server, sid: nat)
    requires LookupInv(base, s) && sid in s.sessions && s.sessions[sid].player != ""
    requires s.sessions[sid].pc.Idle? || s.sessions[sid].pc.Saving?
    ensures Live(s.sessions[sid]) && Finds(base, s.world, s.sessions[sid].player, s.sessions[sid].room)
  {
    hide WorldShape, AllPlaced, PcsPlaced;
    SessionIsOk(s.sessions, s.world.players, s.owner, sid);
  }

  lemma HandleLooksUp(base: World, s: Server, sid: nat, command: Command)
    requires Checked(base) && LookupInv(base, s) && sid in s.sessions && s.sessions[sid].pc.Idle?
    ensures LookupInv(base, DoHandle(s, sid, command))
  {
    hide Checked, LookupInv, Run, Finds, Steady, Commit;
    var session := s.sessions[sid];
    if session.player != "" {
      LiveFinds(base, s, sid);
      RunSteady(base, s.world, session.player, session.room, command);
      CommitLooksUp(base, s, sid, Run(s.world, session.player, session.room, command), HandledEvent(s, sid, command));
    }
  }

  lemma FollowUpLooksUp(base: World, s: Server, sid: nat, questOrder: seq<string>, playerOrder: seq<string>)
    requires Checked(base) && LookupInv(base, s) && sid in s.sessions && s.sessions[sid].pc.Saving?
    ensures LookupInv(base, DoFollowUp(s, sid, questOrder, playerOrder))
  {
    hide Checked, LookupInv, Finds, Steady, Commit, OnItemTaken, OnNpcDefeated, RewardsKnown;
    var session := s.sessions[sid];
    if session.pc.follow != Nothing {
      SavingIsLoggedIn(base, s, sid);
      LiveFinds(base, s, sid);
      LoadedRewards(base);
      SameQuests(base, s);
      match session.pc.follow {
        case Taken(item) => TakenSteady(base, s.world, session.player, session.room, item, questOrder);
        case Defeated(npc) => DefeatedSteady(base, s.world, session.player, session.room, npc, questOrder, playerOrder);
      }
      CommitLooksUp(base, s, sid, FollowUpOutcome(s, sid, questOrder, playerOrder), NoEvent);
    }
  }

  lemma SavingIsLoggedIn(base: World, s: Server, sid: nat)
    requires LookupInv(base, s) && sid in s.sessions && s.sessions[sid].pc.Saving?
    ensures s.sessions[sid].player != ""
  {
    hide WorldShape, AllPlaced, PcsPlaced;
    SessionIsOk(s.sessions, s.world.players, s.owner, sid);
  }

  lemma SameQuests(base: World, s: Server)
    requires LookupInv(base, s)
    ensures s.world.quests == base.quests
  {
    hide MapShape, AllPlaced, PcsPlaced, LoginInv;
  }

  lemma CreateLooksUp(base: World, s: Server, sid: nat, args: seq<string>)
    requires START_ROOM in base.rooms && LookupInv(base, s) && sid in s.sessions
    ensures LookupInv(base, DoCreate(s, sid, args))
  {
    hide MapShape, PcsPlaced, LoginInv, AlreadyDone, IsValidName;
    CreateLogin(s, sid, args);
    var s' := DoCreate(s, sid, args);
    if s' != s {
      var name := args[0];
      SessionPlaced(base, s.sessions, sid, s'.sessions[sid]);
    }
  }

  lemma ConnectLooksUp(base: World, s: Server, sid: nat, args: seq<string>)
    requires LookupInv(base, s) && sid in s.sessions && s.sessions[sid].pc.Idle?
    ensures LookupInv(base, DoConnect(s, sid, args))
  {
    hide WorldShape, AllPlaced, PcsPlaced, LoginInv, IsValidName;
    ConnectLogin(s, sid, args);
    if args != [] {
      SessionPlaced(base, s.sessions, sid, s.sessions[sid].(pc := Seeking(args[0])));
    }
  }

  lemma ReadFileLooksUp(base: World, s: Server, sid: nat)
    requires LookupInv(base, s) && sid in s.sessions && s.sessions[sid].pc.Seeking?
    ensures LookupInv(base, DoReadFile(s, sid))
  {
    hide WorldShape, PcsPlaced, LoginInv, Placed;
    ReadFileLogin(s, sid);
    var name := s.sessions[sid].pc.name;
    SessionPlaced(base, s.sessions, sid, s.sessions[sid].(pc := if name in s.disk then Found(name, s.disk[name]) else Idle));
  }

  lemma LoginLooksUp(base: World, s: Server, sid: nat)
    requires LookupInv(base, s) && sid in s.sessions && s.sessions[sid].pc.Found?
    ensures LookupInv(base, DoLogin(s, sid))
  {
    hide MapShape, LoginInv, PcsPlaced, InitQuests;
    LoginLogin(s, sid);
    var name, loaded := s.sessions[sid].pc.name, s.sessions[sid].pc.state;
    assert PcPlaced(base, s.sessions[sid].pc) by { PcIsPlaced(base, s.sessions, sid); }
    InitPlaced(base, s.world, loaded);
    SessionPlaced(base, s.sessions, sid, s.sessions[sid].(pc := Idle));
    SessionPlaced(base, s.sessions, sid, Session(name, loaded.room, Idle));
  }

  lemma InitPlaced(base: World, w: World, p: PlayerState)
    requires Placed(base, p)
    ensures Placed(base, InitQuests(w, p)) && InitQuests(w, p).room == p.room
  {
    hide AlreadyDone;
  }

  lemma PcIsPlaced(base: World, sessions: map<nat, Session>, sid: nat)
    requires PcsPlaced(base, sessions) && sid in sessions
    ensures PcPlaced(base, sessions[sid].pc)
  {
  }

  lemma SaveLooksUp(base: World, s: Server, sid: nat)
    requires LookupInv(base, s) && sid in s.sessions && HasSave(s.sessions[sid].pc)
    ensures LookupInv(base, DoSave(s, sid))
  {
    hide WorldShape, PcsPlaced, LoginInv, Placed, After;
    SaveLogin(s, sid);
    PcIsPlaced(base, s.sessions, sid);
    var pc := s.sessions[sid].pc;
    var rest := pc.saves[1..];
    assert SavesPlaced(base, rest);
    if pc.Saving? { AfterPlaced(base, rest, pc.follow); }
    var pc' := if pc.Saving? then After(rest, pc.follow) else if rest == [] then Closed else Leaving(rest);
    SessionPlaced(base, s.sessions, sid, s.sessions[sid].(pc := pc'));
    assert Placed(base, pc.saves[0]);
  }

  lemma DisconnectLooksUp(base: World, s: Server, sid: nat)
    requires LookupInv(base, s) && sid in s.sessions && s.sessions[sid].pc.Idle?
    ensures LookupInv(base, DoDisconnect(s, sid))
  {
    hide MapShape, PcsPlaced, LoginInv, Placed, Depart, DoDisconnect;
    DisconnectLogin(s, sid);
    DisconnectShape(s, sid);
    DepartKeeps(s.world, s.sessions[sid].player);
    SessionPlaced(base, s.sessions, sid, DoDisconnect(s, sid).sessions[sid]);
  }

  lemma StepLooksUp(base: World, s: Server, a: Action)
    requires Checked(base) && LookupInv(base, s) && Enabled(s, a)
    ensures LookupInv(base, Step(s, a))
  {
    hide ExitsLead, ItemsKnown, ItemsUnique, NpcsKnown, QuestsKnown, UnlocksKnown, LookupInv, FairRoll, IsOrderOf,
         DoCreate, DoConnect, DoReadFile, DoLogin, DoHandle, DoSave, DoFollowUp, DoDisconnect;
    match a {
      case Accept(sid) => AcceptLooksUp(base, s, sid);
      case Create(sid, args) => CreateLooksUp(base, s, sid, args);
      case Connect(sid, args) => ConnectLooksUp(base, s, sid, args);
      case ReadFile(sid) => ReadFileLooksUp(base, s, sid);
      case Login(sid) => LoginLooksUp(base, s, sid);
      case Handle(sid, command) => HandleLooksUp(base, s, sid, command);
      case Save(sid) => SaveLooksUp(base, s, sid);
      case FollowUp(sid, qs, ps) => FollowUpLooksUp(base, s, sid, qs, ps);
      case Disconnect(sid) => DisconnectLooksUp(base, s, sid);
    }
  }

  lemma AcceptLooksUp(base: World, s: Server, sid: nat)
    requires LookupInv(base, s) && sid !in s.sessions
    ensures LookupInv(base, SetSession(s, sid, Session("", "", Idle)))
  {
    hide WorldShape, AllPlaced, PcsPlaced, LoginInv;
    AcceptLogin(s.sessions, s.world.players, s.owner, sid);
    SessionPlaced(base, s.sessions, sid, Session("", "", Idle));
  }

  // ---- every run -----------------------------------------------------------------------------

  lemma StartLooksUp(base: World)
    requires Checked(base) && Fresh(base)
    ensures LookupInv(base, Start(base))
  {
    hide ExitsLead, ItemsUnique, QuestsKnown, UnlocksKnown;
  }

  lemma {:induction false} ExecLooksUp(base: World, s: Server, run: seq<Action>)
    requires Checked(base) && LookupInv(base, s) && CanRun(s, run)
    ensures LookupInv(base, Exec(s, run))
    decreases |run|
  {
    hide Checked, LookupInv, Step, Enabled;
    if run != [] {
      StepLooksUp(base, s, run[0]);
      ExecLooksUp(base, Step(s, run[0]), run[1..]);
    }
  }

  /** On every world the loader accepts, no `.at()` of any handler ever fails, and every live session knows the
      room its player is in; that room, its NPCs and the player's items exist. */
  lemma LookupsNeverFail(base: World, run: seq<Action>, sid: nat)
    requires Checked(base) && Fresh(base) && CanRun(Start(base), run)
    ensures
      var s := Exec(Start(base), run);
      && !s.threw
      && (sid in s.sessions && Live(s.sessions[sid]) ==>
            var p := s.sessions[sid].player;
            && p in s.world.players && s.sessions[sid].room == s.world.players[p].room
            && s.world.players[p].room in s.world.rooms
            && (forall i :: i in s.world.players[p].inventory ==> i in s.world.items)
            && (forall n :: n in s.world.rooms[s.world.players[p].room].npcs ==> n in s.world.npcs))
  {
    hide Checked, Fresh, Start, CanRun, Exec, PcsPlaced;
    StartLooksUp(base);
    ExecLooksUp(base, Start(base), run);
    var s := Exec(Start(base), run);
    if sid in s.sessions && Live(s.sessions[sid]) {
      SessionIsOk(s.sessions, s.world.players, s.owner, sid);
      RoomFound(base, s.world, s.sessions[sid].player, s.sessions[sid].room);
    }
  }

  /** On every world the loader accepts, live sessions map one-to-one onto the online players. */
  lemma LoginIsExclusive(base: World, run: seq<Action>, p: string, a: nat, b: nat)
    requires Checked(base) && Fresh(base) && CanRun(Start(base), run)
    ensures
      var s := Exec(Start(base), run);
      && (a in s.sessions && Live(s.sessions[a]) ==> s.sessions[a].player in s.world.players)
      && (p in s.world.players ==> exists sid :: sid in s.sessions && Live(s.sessions[sid]) && s.sessions[sid].player == p)
      && (a in s.sessions && b in s.sessions && Live(s.sessions[a]) && Live(s.sessions[b]) ==>
            s.sessions[a].player == s.sessions[b].player ==> a == b)
  {
    hide Checked, Fresh, Start, CanRun, Exec, PcsPlaced, WorldShape, AllPlaced;
    StartLooksUp(base);
    ExecLooksUp(base, Start(base), run);
    var s := Exec(Start(base), run);
    if a in s.sessions {
      SessionIsOk(s.sessions, s.world.players, s.owner, a);
    }
    if b in s.sessions {
      SessionIsOk(s.sessions, s.world.players, s.owner, b);
    }
    if p in s.world.players {
      assert s.owner[p] in s.sessions && Live(s.sessions[s.owner[p]]) && s.sessions[s.owner[p]].player == p;
    }
  }
}
