/** Every character state - online, on disk or in a thread's hands - stays good. */
module StatesProof {
  import opened WorldModel
  import opened Sections
  import opened WorldRules
  import opened Server
  import opened Invariants
  import opened Commits

  lemma InitQuestsSame(w: World, p: PlayerState)
    requires p.quests.Keys == w.quests.Keys
    ensures InitQuests(w, p) == p
  {
    assert InitQuests(w, p).quests == p.quests;
  }

  lemma NewCharacterIsGood(base: World, w: World, name: string, race: string, attributes: string)
    requires w.quests == base.quests && START_ROOM in base.rooms
    ensures Good(base, w.npcs, name, InitQuests(w, NewCharacter(name, race, attributes)))
    ensures InitQuests(w, NewCharacter(name, race, attributes)).room == START_ROOM
    ensures InitQuests(w, NewCharacter(name, race, attributes)).id == name
  {
    hide AllDead, Reached;
    StatusesDiffer();
    StartIsReached(base);
  }

  lemma OneMoreGood(base: World, npcs: map<string, Npc>, players: map<string, PlayerState>, name: string, p: PlayerState)
    requires PlayersGood(base, npcs, players) && Good(base, npcs, name, p)
    ensures PlayersGood(base, npcs, players[name := p])
  {
    hide Good;
  }

  lemma OneSaveGood(base: World, npcs: map<string, Npc>, p: PlayerState)
    requires Good(base, npcs, p.id, p)
    ensures SavesGood(base, npcs, [p])
  {
    hide Good;
  }

  lemma PcUpdateGood(base: World, npcs: map<string, Npc>, sessions: map<nat, Session>, sid: nat, session: Session)
    requires PcsGood(base, npcs, sessions) && PcGood(base, npcs, session.pc)
    ensures PcsGood(base, npcs, sessions[sid := session])
  {
    hide PcGood;
  }

  lemma PcIsGood(base: World, s: Server, sid: nat)
    requires StatesInv(base, s) && sid in s.sessions
    ensures PcGood(base, s.world.npcs, s.sessions[sid].pc)
  {
    hide PcGood, PlayersGood;
  }

  lemma CommitStates(base: World, s: Server, sid: nat, o: Outcome, event: GroupEvent)
    requires StatesInv(base, s) && sid in s.sessions && Tame(base, s.world, s.sessions[sid].player, o)
    ensures StatesInv(base, Commit(s, sid, o, event))
  {
    hide PlayersGood, PcsGood, SavesGood, HpFalls, PlayersAdvance, MapOk, SavesOf, Recorded, Moved, Flipped;
    PlayersGoodStays(base, s.world.npcs, o.world.npcs, s.disk);
    PcsGoodStays(base, s.world.npcs, o.world.npcs, s.sessions);
    PcUpdateGood(base, o.world.npcs, s.sessions, sid, s.sessions[sid].(room := o.room, pc := After(o.saves, o.follow)));
  }

  lemma CreateStates(base: World, s: Server, sid: nat, args: seq<string>)
    requires WorldOk(base, s.world) && START_ROOM in base.rooms && StatesInv(base, s) && sid in s.sessions
    ensures StatesInv(base, DoCreate(s, sid, args))
  {
    hide PlayersGood, PcsGood, Good, MapOk, InitQuests, IsValidName, SavesGood;
    if DoCreate(s, sid, args) != s {
      var name, race, attributes := args[0], if |args| > 1 then args[1] else "", JoinFrom(args, 2);
      NewCharacterIsGood(base, s.world, name, race, attributes);
      var p := InitQuests(s.world, NewCharacter(name, race, attributes));
      OneMoreGood(base, s.world.npcs, s.world.players, name, p);
      OneSaveGood(base, s.world.npcs, p);
      PcUpdateGood(base, s.world.npcs, s.sessions, sid, Session(name, START_ROOM, Saving([p], Nothing)));
    }
  }

  lemma ConnectStates(base: World, s: Server, sid: nat, args: seq<string>)
    requires StatesInv(base, s) && sid in s.sessions
    ensures StatesInv(base, DoConnect(s, sid, args))
  {
    hide PlayersGood, PcsGood, IsValidName;
    if DoConnect(s, sid, args) != s {
      PcUpdateGood(base, s.world.npcs, s.sessions, sid, s.sessions[sid].(pc := Seeking(args[0])));
    }
  }

  lemma ReadFileStates(base: World, s: Server, sid: nat)
    requires StatesInv(base, s) && sid in s.sessions && s.sessions[sid].pc.Seeking?
    ensures StatesInv(base, DoReadFile(s, sid))
  {
    hide PcsGood, Good;
    var name := s.sessions[sid].pc.name;
    var pc := if name in s.disk then Found(name, s.disk[name]) else Idle;
    PcUpdateGood(base, s.world.npcs, s.sessions, sid, s.sessions[sid].(pc := pc));
  }

  lemma LoginStates(base: World, s: Server, sid: nat)
    requires WorldOk(base, s.world) && StatesInv(base, s) && sid in s.sessions && s.sessions[sid].pc.Found?
    ensures StatesInv(base, DoLogin(s, sid))
  {
    hide PlayersGood, PcsGood, MapOk, InitQuests, Sound;
    var name, loaded := s.sessions[sid].pc.name, s.sessions[sid].pc.state;
    PcIsGood(base, s, sid);
    InitQuestsSame(s.world, loaded);
    OneMoreGood(base, s.world.npcs, s.world.players, name, loaded);
    PcUpdateGood(base, s.world.npcs, s.sessions, sid, s.sessions[sid].(pc := Idle));
    PcUpdateGood(base, s.world.npcs, s.sessions, sid, Session(name, loaded.room, Idle));
  }

  lemma SaveStates(base: World, s: Server, sid: nat)
    requires StatesInv(base, s) && sid in s.sessions && HasSave(s.sessions[sid].pc)
    ensures StatesInv(base, DoSave(s, sid))
  {
    hide PlayersGood, PcsGood, Good;
    var pc := s.sessions[sid].pc;
    PcIsGood(base, s, sid);
    SavesSplit(base, s.world.npcs, pc.saves);
    OneMoreGood(base, s.world.npcs, s.disk, pc.saves[0].id, pc.saves[0]);
    var rest := pc.saves[1..];
    var pc' := if pc.Saving? then After(rest, pc.follow) else if rest == [] then Closed else Leaving(rest);
    PcUpdateGood(base, s.world.npcs, s.sessions, sid, s.sessions[sid].(pc := pc'));
  }

  lemma SavesSplit(base: World, npcs: map<string, Npc>, saves: seq<PlayerState>)
    requires SavesGood(base, npcs, saves) && saves != []
    ensures Good(base, npcs, saves[0].id, saves[0]) && SavesGood(base, npcs, saves[1..])
  {
    hide Good;
  }

  lemma DisconnectStates(base: World, s: Server, sid: nat)
    requires StatesInv(base, s) && sid in s.sessions
    ensures StatesInv(base, DoDisconnect(s, sid))
  {
    hide PlayersGood, PcsGood, Good, Depart, SavesGood;
    var name := s.sessions[sid].player;
    DepartKeeps(s.world, name);
    FewerGood(base, s.world.npcs, s.world.players, name);
    if name != "" && name in s.world.players {
      PcUpdateGood(base, s.world.npcs, s.sessions, sid, s.sessions[sid].(pc := Leaving([s.world.players[name]])));
    } else {
      PcUpdateGood(base, s.world.npcs, s.sessions, sid, s.sessions[sid].(pc := Closed));
    }
  }

  /** Leaving the world touches nothing but the players and the group maps. */
  lemma DepartKeeps(w: World, name: string)
    ensures Depart(w, name) == w.(players := w.players - {name}, playerGroup := Depart(w, name).playerGroup,
                                  groups := Depart(w, name).groups)
  {
  }

  lemma FewerGood(base: World, npcs: map<string, Npc>, players: map<string, PlayerState>, name: string)
    requires PlayersGood(base, npcs, players)
    ensures PlayersGood(base, npcs, players - {name})
    ensures name in players ==> SavesGood(base, npcs, [players[name]]) && players[name].id == name
  {
    hide Sound;
  }
}
