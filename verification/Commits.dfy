/** What a critical section entered by one player's thread can do to the rest of the server. */
module Commits {
  import opened Lists
  import opened WorldModel
  import opened Sections
  import opened WorldRules
  import opened Completions
  import opened Server
  import opened Invariants

  /** Statuses only move from in progress to completed. */
  ghost predicate StatusesAdvance(p: PlayerState, p': PlayerState) {
    && p'.quests.Keys == p.quests.Keys
    && forall q {:trigger p'.quests[q]} :: q in p.quests ==>
         p'.quests[q] == p.quests[q] || (p.quests[q] == IN_PROGRESS && p'.quests[q] == COMPLETED)
  }

  ghost predicate PlayersAdvance(players: map<string, PlayerState>, players': map<string, PlayerState>, pid: string) {
    && players'.Keys == players.Keys
    && (forall p {:trigger players'[p]} :: p in players ==> StatusesAdvance(players[p], players'[p]))
    && (forall p {:trigger players'[p]} :: p in players && p != pid ==> players'[p].room == players[p].room)
  }

  ghost predicate SavesOf(saves: seq<PlayerState>, players: map<string, PlayerState>) {
    forall i {:trigger saves[i]} :: 0 <= i < |saves| ==> saves[i].id in players
  }

  /** The outcome of a section that keeps every state good and touches nobody else's whereabouts. */
  ghost predicate Tame(base: World, w: World, pid: string, o: Outcome) {
    && o.Outcome?
    && WorldOk(base, o.world)
    && HpFalls(w.npcs, o.world.npcs)
    && PlayersAdvance(w.players, o.world.players, pid)
    && PlayersGood(base, o.world.npcs, o.world.players)
    && SavesGood(base, o.world.npcs, o.saves)
    && SavesOf(o.saves, w.players)
    && pid in o.world.players && o.room == o.world.players[pid].room
  }

  // ---- the three kinds of sections -----------------------------------------------------------

  /** A group command: only the group maps differ, nothing is saved. */
  ghost predicate GroupOnly(w: World, room: string, o: Outcome) {
    && o.Outcome?
    && o.world == w.(playerGroup := o.world.playerGroup, groups := o.world.groups, invites := o.world.invites)
    && o.room == room && o.saves == [] && o.follow == Nothing && o.transfer == Stay
  }

  ghost predicate AllCleared(base: World, npcs: map<string, Npc>, done: set<string>) {
    forall q {:trigger q in done} :: q in done && q in base.quests && base.quests[q].kind.Defeat?
                                     ==> AllDead(base.quests[q].targets, npcs)
  }

  /** A quest-completing pass: only quest statuses differ, towards the quests in `done`. */
  ghost predicate Completes(base: World, w: World, room: string, o: Outcome, done: set<string>) {
    && o.Outcome?
    && o.world == w.(players := o.world.players)
    && Progress(w.players, Pass(o.world.players, o.saves), done)
    && AllCleared(base, w.npcs, done)
    && o.room == room && o.follow == Nothing && o.transfer == Stay
  }

  lemma GoodStays(base: World, npcs: map<string, Npc>, npcs': map<string, Npc>, name: string, p: PlayerState)
    requires Good(base, npcs, name, p) && HpFalls(npcs, npcs')
    ensures Good(base, npcs', name, p)
  {
    hide StateOk, HpFalls, Sound;
    SoundStays(base.quests, npcs, npcs', p);
  }

  lemma PlayersGoodStays(base: World, npcs: map<string, Npc>, npcs': map<string, Npc>, players: map<string, PlayerState>)
    requires PlayersGood(base, npcs, players) && HpFalls(npcs, npcs')
    ensures PlayersGood(base, npcs', players)
  {
    hide Good, HpFalls;
    forall p | p in players ensures Good(base, npcs', p, players[p]) {
      GoodStays(base, npcs, npcs', p, players[p]);
    }
  }

  lemma SavesGoodStays(base: World, npcs: map<string, Npc>, npcs': map<string, Npc>, saves: seq<PlayerState>)
    requires SavesGood(base, npcs, saves) && HpFalls(npcs, npcs')
    ensures SavesGood(base, npcs', saves)
  {
    hide Good, HpFalls;
    forall i | 0 <= i < |saves| ensures Good(base, npcs', saves[i].id, saves[i]) {
      GoodStays(base, npcs, npcs', saves[i].id, saves[i]);
    }
  }

  lemma PcsGoodStays(base: World, npcs: map<string, Npc>, npcs': map<string, Npc>, sessions: map<nat, Session>)
    requires PcsGood(base, npcs, sessions) && HpFalls(npcs, npcs')
    ensures PcsGood(base, npcs', sessions)
  {
    hide Good, HpFalls, SavesGood;
    forall sid | sid in sessions ensures PcGood(base, npcs', sessions[sid].pc) {
      var pc := sessions[sid].pc;
      assert PcGood(base, npcs, pc);
      match pc
      case Found(name, state) => GoodStays(base, npcs, npcs', name, state);
      case Saving(saves, _) => SavesGoodStays(base, npcs, npcs', saves);
      case Leaving(saves) => SavesGoodStays(base, npcs, npcs', saves);
      case _ =>
    }
  }

  lemma AdvanceSame(players: map<string, PlayerState>, pid: string)
    ensures PlayersAdvance(players, players, pid)
  {
  }

  /** One player changed, with the same quest statuses. */
  lemma AdvanceOne(players: map<string, PlayerState>, pid: string, p': PlayerState)
    requires pid in players && p'.quests == players[pid].quests
    ensures PlayersAdvance(players, players[pid := p'], pid)
  {
  }

  lemma NothingFalls(npcs: map<string, Npc>)
    ensures HpFalls(npcs, npcs)
  {
  }

  /** A state whose quest statuses are those of a good state is sound. */
  lemma SoundSameQuests(quests: map<string, Quest>, npcs: map<string, Npc>, p: PlayerState, p': PlayerState)
    requires Sound(quests, npcs, p) && p'.quests == p.quests
    ensures Sound(quests, npcs, p')
  {
  }

  lemma BehavesIsTame(base: World, w: World, pid: string, room: string, o: Outcome)
    requires WorldOk(base, w) && PlayersGood(base, w.npcs, w.players) && pid in w.players && room == w.players[pid].room
    requires Behaves(base, w, pid, room, o)
    ensures Tame(base, w, pid, o)
  {
    hide MapOk, HpFalls, PlayersAdvance, PlayersGood, Good, Moves, Deaths, StateOk;
    AdvanceSame(w.players, pid);
    NothingFalls(w.npcs);
    if o.world != w || o.saves != [] {
      var p' :| Change(base, w, o.world, pid, w.players[pid], p', o.follow, o.transfer) && o.room == p'.room
                && (o.saves == [p'] || o.saves == []);
      AdvanceOne(w.players, pid, p');
      PlayersGoodStays(base, w.npcs, o.world.npcs, w.players);
      ChangedIsGood(base, o.world.npcs, w.players, pid, p');
    }
  }

  lemma ChangedIsGood(base: World, npcs: map<string, Npc>, players: map<string, PlayerState>, pid: string, p': PlayerState)
    requires PlayersGood(base, npcs, players) && pid in players
    requires StateOk(base, pid, p') && p'.quests == players[pid].quests
    ensures PlayersGood(base, npcs, players[pid := p'])
    ensures SavesGood(base, npcs, [p']) && p'.id == pid
  {
    hide Sound;
    assert Good(base, npcs, pid, players[pid]);
    SoundSameQuests(base.quests, npcs, players[pid], p');
  }

  lemma GroupOnlyIsTame(base: World, w: World, pid: string, room: string, o: Outcome)
    requires WorldOk(base, w) && PlayersGood(base, w.npcs, w.players) && pid in w.players && room == w.players[pid].room
    requires GroupOnly(w, room, o)
    ensures Tame(base, w, pid, o)
  {
    hide MapOk, HpFalls, PlayersAdvance, PlayersGood, Good;
    AdvanceSame(w.players, pid);
    NothingFalls(w.npcs);
  }

  /** Marking cleared quests completed keeps a state good. */
  lemma AdvancedIsGood(base: World, npcs: map<string, Npc>, name: string, p: PlayerState, p': PlayerState, done: set<string>)
    requires Good(base, npcs, name, p) && Advances(p, p', done) && AllCleared(base, npcs, done)
    ensures Good(base, npcs, name, p') && StatusesAdvance(p, p') && p'.id == p.id && p'.room == p.room
  {
    hide AllDead;
    StatusesDiffer();
  }

  lemma CompletesIsTame(base: World, w: World, pid: string, room: string, o: Outcome, done: set<string>)
    requires WorldOk(base, w) && PlayersGood(base, w.npcs, w.players) && pid in w.players && room == w.players[pid].room
    requires Completes(base, w, room, o, done)
    ensures Tame(base, w, pid, o)
  {
    hide MapOk, HpFalls, Good, Advances, AllCleared, StatusesAdvance;
    NothingFalls(w.npcs);
    forall p | p in w.players
      ensures Good(base, w.npcs, p, o.world.players[p])
      ensures StatusesAdvance(w.players[p], o.world.players[p]) && o.world.players[p].room == w.players[p].room
    {
      AdvancedIsGood(base, w.npcs, p, w.players[p], o.world.players[p], done);
    }
    forall i | 0 <= i < |o.saves| ensures o.saves[i].id in w.players && Good(base, w.npcs, o.saves[i].id, o.saves[i]) {
      var p := o.saves[i].id;
      assert Pass(o.world.players, o.saves).saves[i] == o.saves[i];
      AdvancedIsGood(base, w.npcs, p, w.players[p], o.saves[i], done);
    }
  }

  // ---- commands are of one of these kinds ----------------------------------------------------

  lemma GroupCommandsOnly(w: World, pid: string, room: string, args: seq<string>)
    ensures GroupOnly(w, room, GroupCreate(w, pid, room, args))
    ensures GroupOnly(w, room, GroupInvite(w, pid, room, args))
    ensures GroupOnly(w, room, GroupAccept(w, pid, room, args))
    ensures GroupOnly(w, room, GroupLeave(w, pid, room))
  {
  }

  predicate IsGroupCommand(command: Command) {
    command.CreateGroup? || command.Invite? || command.AcceptInvite? || command.QuitGroup?
  }

  /** The loader's checks and the model's assumptions, on the loaded world and for a ready player,
      make every lookup of a handler succeed. */
  lemma RunBehaves(base: World, w: World, session: Session, command: Command)
    requires Loaded(base) && WorldOk(base, w) && PlayersGood(base, w.npcs, w.players)
    requires session.player in w.players && session.room == w.players[session.player].room
    requires AreTokens(Args(command)) && FairRoll(w, session, command) && !IsGroupCommand(command)
    ensures Behaves(base, w, session.player, session.room, Run(w, session.player, session.room, command))
  {
    hide ExitsLead, ItemsKnown, ItemsUnique, NpcsKnown, QuestsKnown, UnlocksKnown, NpcsSane, AmountsSane, NoRewards,
         MapOk, Behaves, Sound, Move, Take, Drop, Use, Attack, Talk, FairRoll, PlayersGood;
    var pid, room := session.player, session.room;
    PlayerIsGood(base, w, pid);
    RoomIsKnown(base, w, pid, room);
    match command {
      case MoveTo(args) => MoveBehaves(base, w, pid, room, args);
      case TakeItem(args) => TakeBehaves(base, w, pid, room, args);
      case DropItem(args) => DropBehaves(base, w, pid, room, args);
      case UseItem(args) => UseBehaves(base, w, pid, room, args);
      case AttackNpc(args, roll) =>
        FairRollHolds(w, session, args, roll);
        AttackBehaves(base, w, pid, room, args, roll);
      case TalkTo(args) => TalkBehaves(base, w, pid, room, args);
      case Ask => AskBehaves(base, w, pid, room);
    }
  }

  lemma RunIsTame(base: World, w: World, session: Session, command: Command)
    requires Loaded(base) && WorldOk(base, w) && PlayersGood(base, w.npcs, w.players)
    requires session.player in w.players && session.room == w.players[session.player].room
    requires AreTokens(Args(command)) && FairRoll(w, session, command)
    ensures Tame(base, w, session.player, Run(w, session.player, session.room, command))
  {
    hide Loaded, WorldOk, Tame, GroupOnly, Behaves, GroupCreate, GroupInvite, GroupAccept, GroupLeave, FairRoll, PlayersGood,
         Move, Take, Drop, Use, Attack, Talk;
    if IsGroupCommand(command) {
      GroupCommandsOnly(w, session.player, session.room, Args(command));
      GroupOnlyIsTame(base, w, session.player, session.room, Run(w, session.player, session.room, command));
    } else {
      RunBehaves(base, w, session, command);
      BehavesIsTame(base, w, session.player, session.room, Run(w, session.player, session.room, command));
    }
  }

  lemma PlayerIsGood(base: World, w: World, pid: string)
    requires PlayersGood(base, w.npcs, w.players) && pid in w.players
    ensures StateOk(base, pid, w.players[pid]) && Sound(base.quests, w.npcs, w.players[pid])
  {
  }

  lemma AskBehaves(base: World, w: World, pid: string, room: string)
    requires pid in w.players
    ensures Behaves(base, w, pid, room, Query(w, pid, room))
  {
  }

  lemma FairRollHolds(w: World, session: Session, args: seq<string>, roll: Roll)
    requires FairRoll(w, session, AttackNpc(args, roll))
    requires session.player in w.players && session.room == w.players[session.player].room && session.room in w.rooms
    ensures args != [] ==>
              var npc := Resolve(w.rooms[session.room].npcs, NpcNames(w.npcs), JoinFrom(args, 0));
              npc in w.npcs ==> InRange(roll, w.npcs[npc])
  {
  }

  // ---- the follow-up sections ----------------------------------------------------------------

  lemma FollowUpIsTame(base: World, s: Server, sid: nat, questOrder: seq<string>, playerOrder: seq<string>)
    requires Loaded(base) && WorldOk(base, s.world) && PlayersGood(base, s.world.npcs, s.world.players)
    requires CanFollowUp(s, sid, questOrder, playerOrder) && s.sessions[sid].pc.follow != Nothing
    requires s.sessions[sid].player in s.world.players && s.sessions[sid].room == s.world.players[s.sessions[sid].player].room
    ensures Tame(base, s.world, s.sessions[sid].player, FollowUpOutcome(s, sid, questOrder, playerOrder))
    ensures Completes(base, s.world, s.sessions[sid].room, FollowUpOutcome(s, sid, questOrder, playerOrder), FollowUpQuests(s, sid))
  {
    hide ExitsLead, ItemsKnown, ItemsUnique, NpcsKnown, QuestsKnown, UnlocksKnown, NpcsSane, AmountsSane,
         MapOk, Tame, OnItemTaken, DefeatPass, Progress, PlayersGood, IdsMatch, IsOrderOf, AllCleared;
    var session, w := s.sessions[sid], s.world;
    IdsAreKeys(base, w.npcs, w.players);
    match session.pc.follow {
      case Taken(item) =>
        TakenCompletes(base, w, session.player, session.room, item, questOrder);
      case Defeated(npc) =>
        DefeatCompletes(w, session.room, npc, questOrder, playerOrder);
        DefeatedClears(base, w, npc);
    }
    CompletesIsTame(base, w, session.player, session.room, FollowUpOutcome(s, sid, questOrder, playerOrder), FollowUpQuests(s, sid));
  }

  function FollowUpOutcome(s: Server, sid: nat, questOrder: seq<string>, playerOrder: seq<string>): Outcome
    requires sid in s.sessions && s.sessions[sid].pc.Saving? && s.sessions[sid].pc.follow != Nothing
  {
    var session := s.sessions[sid];
    match session.pc.follow
    case Taken(item) => OnItemTaken(s.world, session.player, session.room, item, questOrder)
    case Defeated(npc) => OnNpcDefeated(s.world, session.room, npc, questOrder, playerOrder)
  }

  /** The quests a follow-up section completes. */
  function FollowUpQuests(s: Server, sid: nat): set<string>
    requires sid in s.sessions && s.sessions[sid].pc.Saving? && s.sessions[sid].pc.follow != Nothing
  {
    match s.sessions[sid].pc.follow
    case Taken(item) => FetchedBy(s.world.quests, item)
    case Defeated(npc) => ClearedBy(s.world.quests, s.world.npcs, npc)
  }

  lemma IdsAreKeys(base: World, npcs: map<string, Npc>, players: map<string, PlayerState>)
    requires PlayersGood(base, npcs, players)
    ensures IdsMatch(players)
  {
    hide Sound;
  }

  lemma DefeatedClears(base: World, w: World, npc: string)
    requires w.quests == base.quests
    ensures AllCleared(base, w.npcs, ClearedBy(w.quests, w.npcs, npc))
  {
  }

  lemma TakenCompletes(base: World, w: World, pid: string, room: string, item: string, order: seq<string>)
    requires NoRewards(base) && w.quests == base.quests && IdsMatch(w.players)
    requires pid in w.players && IsOrderOf(order, w.quests.Keys)
    ensures Completes(base, w, room, OnItemTaken(w, pid, room, item, order), FetchedBy(w.quests, item))
  {
    hide Advances, IsOrderOf, FetchPass, Progress;
    var done := FetchedBy(w.quests, item);
    FetchCompletes(w.players[pid], w.quests, item, order);
    var p := FetchPass(w.players[pid], w.quests, item, order);
    StartOfPass(w.players, done);
    OneAdvanced(w.players, pid, p, done);
    FetchedIsCleared(base, w, item);
  }

  lemma FetchedIsCleared(base: World, w: World, item: string)
    requires w.quests == base.quests
    ensures AllCleared(base, w.npcs, FetchedBy(w.quests, item))
  {
  }

  /** A pass in which one player advanced and was queued for saving. */
  lemma OneAdvanced(players: map<string, PlayerState>, pid: string, p: PlayerState, done: set<string>)
    requires pid in players && IdsMatch(players) && Advances(players[pid], p, done)
    ensures Progress(players, Pass(players[pid := p], [p]), done)
  {
    hide Advances;
    IdKept(players[pid], p, done);
    forall n | n in players ensures Advances(players[n], players[n], done) {
      NothingAdvances(players[n], done);
    }
    forall n | n in players ensures Newest([p], n, players[n]) == if n == pid then p else players[n] {
      NewestAppend([], p, n, players[n]);
      assert [] + [p] == [p];
    }
  }

  lemma NothingAdvances(p: PlayerState, done: set<string>)
    ensures Advances(p, p, done)
  {
  }
}
