/** What every run promises about taking items and fetch quests. */
module FetchTheorems {
  import opened Lists
  import opened WorldModel
  import opened Sections
  import opened WorldRules
  import opened Server
  import opened StepShapes
  import opened Invariants
  import opened Commits
  import opened StatesProof
  import opened Runs
  import opened Serial
  import opened SerialProof
  import opened SerialItems
  import opened SerialTheorems
  import opened FetchProof

  // ---- every run -----------------------------------------------------------------------------

  /** A successful TAKE puts the item it names into the bag, out of the room, and on its way to the quest log in
      the thread that took it, behind the save of the taker; any other TAKE changes nothing. */
  lemma TakeIsReported(base: World, run: seq<Action>, sid: nat, args: seq<string>)
    requires Loaded(base) && CanRun(Start(base), run) && CanHandle(Exec(Start(base), run), sid, TakeItem(args))
    requires Exec(Start(base), run).sessions[sid].player != ""
    ensures
      var s := Exec(Start(base), run);
      var s', pid := DoHandle(s, sid, TakeItem(args)), s.sessions[sid].player;
      pid in s.world.players && s.world.players[pid].room in s.world.rooms &&
      var here := s.world.players[pid].room;
      var item := Resolve(s.world.rooms[here].items, ItemNames(s.world.items), JoinFrom(args, 0));
      if args == [] || item == "" then s'.world == s.world && s'.sessions == s.sessions
      else
        && s'.world.players == s.world.players[pid := s'.world.players[pid]]
        && s'.world.players[pid] == s.world.players[pid].(inventory := s.world.players[pid].inventory + [item])
        && item in s.world.rooms[here].items && here in s'.world.rooms && item !in s'.world.rooms[here].items
        && s'.sessions == s.sessions[sid := s.sessions[sid].(pc := Saving([s'.world.players[pid]], Taken(item)))]
  {
    hide Loaded, Start, CanRun, Exec, StatesInv, LoginInv, NamesInv, FirstLoginInv, FlipInv, GroupsAgree, GroupLogInv, MapOk,
         PlayersGood, CanHandle, DoHandle, Commit, Reached, Without;
    RunInv(base, run);
    var s := Exec(Start(base), run);
    IdleTaker(s, sid, args);
    LiveIsReady(base, s, sid);
    var session := s.sessions[sid];
    var pid := session.player;
    PlayerIsGood(base, s.world, pid);
    RoomIsKnown(base, s.world, pid, session.room);
    TakeShape(s, sid, args);
  }

  lemma IdleTaker(s: Server, sid: nat, args: seq<string>)
    requires CanHandle(s, sid, TakeItem(args))
    ensures sid in s.sessions && s.sessions[sid].pc.Idle?
  {
    hide FairRoll;
  }

  lemma TakeShape(s: Server, sid: nat, args: seq<string>)
    requires sid in s.sessions && s.sessions[sid].player in s.world.players && s.sessions[sid].player != "" && s.sessions[sid].pc.Idle?
    requires s.world.players[s.sessions[sid].player].room in s.world.rooms
    requires s.sessions[sid].room == s.world.players[s.sessions[sid].player].room
    ensures
      var s', pid := DoHandle(s, sid, TakeItem(args)), s.sessions[sid].player;
      var p, here := s.world.players[pid], s.world.players[pid].room;
      var item := Resolve(s.world.rooms[here].items, ItemNames(s.world.items), JoinFrom(args, 0));
      if args == [] || item == "" then s'.world == s.world && s'.sessions == s.sessions
      else
        && s'.world.players == s.world.players[pid := p.(inventory := p.inventory + [item])]
        && here in s'.world.rooms && item !in s'.world.rooms[here].items
        && s'.sessions == s.sessions[sid := s.sessions[sid].(pc := Saving([s'.world.players[pid]], Taken(item)))]
  {
    hide Commit, DoHandle, EventOf, Recorded, Moved, Without;
    var session := s.sessions[sid];
    var pid, command := session.player, TakeItem(args);
    var here := s.world.players[pid].room;
    var item := Resolve(s.world.rooms[here].items, ItemNames(s.world.items), JoinFrom(args, 0));
    var o := Run(s.world, pid, session.room, command);
    HandleShape(s, sid, command);
    CommitShape(s, sid, o, EventOf(s.world, pid, command, o));
    if args == [] || item == "" {
      assert s.sessions[sid := session] == s.sessions;
    } else {
      WithoutMembers(s.world.rooms[here].items, item);
    }
  }

  /** In the login that created the character, whoever carries the target of a fetch quest has it completed, or
      the item is on its way to the quest log in that very session. */
  lemma CarriedMeansCompleted(base: World, run: seq<Action>, p: string, q: string)
    requires Loaded(base) && CanRun(Start(base), run) && q in base.quests && base.quests[q].kind.Fetch?
    requires p in Exec(Start(base), run).firstLogin
    ensures
      var s := Exec(Start(base), run);
      && p in s.world.players && q in s.world.players[p].quests
      && (base.quests[q].target in s.world.players[p].inventory && s.world.players[p].quests[q] != COMPLETED ==>
            && p in s.owner && s.owner[p] in s.sessions && s.sessions[s.owner[p]].player == p
            && s.sessions[s.owner[p]].pc.Saving? && s.sessions[s.owner[p]].pc.follow == Taken(base.quests[q].target))
  {
    hide Loaded, Start, CanRun, Exec, MapOk, Sound, PcsGood, NamesInv, FlipInv, GroupsAgree, GroupLogInv, FetchInv, KillPending, StandsNowhere,
         Reached;
    LoadedIsFresh(base);
    StartInv(base);
    StartFetch(base);
    FirstLoginExec(base, Start(base), run);
    var s := Exec(Start(base), run);
    assert p in s.world.players by { FirstLoginsAreOnline(base, s, p); }
    PlayerIsGood(base, s.world, p);
    OwnerIsLive(s.sessions, s.world.players, s.owner, p);
    if base.quests[q].target in s.world.players[p].inventory {
      CarriedIsSettled(base, s, s.firstLogin, p, q);
    }
  }

  lemma FirstLoginsAreOnline(base: World, s: Server, p: string)
    requires FirstLoginInv(base, s) && p in s.firstLogin
    ensures p in s.world.players
  {
    hide KillPending, StandsNowhere;
  }

  lemma CarriedIsSettled(base: World, s: Server, who: set<string>, p: string, q: string)
    requires FetchInv(base, s.world.players, s.sessions, s.owner, who) && p in who && p in s.world.players
    requires Carries(base, s.world.players[p], q)
    ensures s.world.players[p].quests[q] == COMPLETED || Pending(s.sessions, s.owner, p) == Taken(base.quests[q].target)
  {
  }

  lemma StartFetch(base: World)
    requires Fresh(base)
    ensures FetchInv(base, Start(base).world.players, Start(base).sessions, Start(base).owner, {})
    ensures Start(base).firstLogin == {} && Start(base).world.players.Keys == {} && Start(base).disk == map[]
  {
  }

  lemma {:induction false} FirstLoginExec(base: World, s: Server, run: seq<Action>)
    requires Loaded(base) && Inv(base, s) && CanRun(s, run) && FetchInv(base, s.world.players, s.sessions, s.owner, s.firstLogin)
    ensures Inv(base, Exec(s, run))
    ensures var s' := Exec(s, run); FetchInv(base, s'.world.players, s'.sessions, s'.owner, s'.firstLogin)
    decreases |run|
  {
    hide Loaded, Inv, Step, Enabled, FetchInv;
    if run != [] {
      var a, next := run[0], Step(s, run[0]);
      StepKeeps(base, s, a);
      FirstLoginsOnline(base, s);
      StepFetch(base, s, a, s.firstLogin);
      FirstLoginGrows(s, a);
      FewerFetch(base, next, if a.Create? then s.firstLogin + (next.world.players.Keys - s.world.players.Keys) else s.firstLogin, next.firstLogin);
      FirstLoginExec(base, next, run[1..]);
    }
  }

  lemma FirstLoginsOnline(base: World, s: Server)
    requires Inv(base, s)
    ensures s.firstLogin <= s.world.players.Keys
  {
    hide WorldOk, StatesInv, LoginInv, NamesInv, FlipInv, GroupsAgree, GroupLogInv, KillPending, StandsNowhere;
  }

  /** Only a creation begins a first login. */
  lemma FirstLoginGrows(s: Server, a: Action)
    requires Enabled(s, a)
    ensures Step(s, a).firstLogin <= s.firstLogin + if a.Create? then Step(s, a).world.players.Keys - s.world.players.Keys else {}
  {
    hide AreTokens, FairRoll, IsOrderOf, Run, OnItemTaken, OnNpcDefeated, Commit, IsValidName, InitQuests, Depart, JoinFrom, DoCreate, DoHandle;
    match a {
      case Create(sid, args) =>
        if DoCreate(s, sid, args) != s {
          CreateShape(s, sid, args);
        }
      case Handle(sid, command) => HandleFirstLogin(s, sid, command);
      case FollowUp(sid, qs, ps) => FollowUpFirstLogin(s, sid, qs, ps);
      case _ =>
    }
  }

  lemma HandleFirstLogin(s: Server, sid: nat, command: Command)
    requires sid in s.sessions
    ensures DoHandle(s, sid, command).firstLogin == s.firstLogin
  {
    hide Run, EventOf, Recorded, Moved, Flipped, After;
  }

  lemma FollowUpFirstLogin(s: Server, sid: nat, questOrder: seq<string>, playerOrder: seq<string>)
    requires sid in s.sessions && s.sessions[sid].pc.Saving?
    ensures DoFollowUp(s, sid, questOrder, playerOrder).firstLogin == s.firstLogin
  {
    hide OnItemTaken, OnNpcDefeated, Recorded, Moved, Flipped, After;
  }

  // ---- command-atomic runs -------------------------------------------------------------------

  /** Characters who are offline carry no target of an open fetch quest in their files. */
  ghost predicate OfflineFetched(base: World, players: map<string, PlayerState>, disk: map<string, PlayerState>) {
    forall n {:trigger disk[n]} :: n in disk && n !in players ==> Fetched(base, disk[n], Nothing)
  }

  ghost predicate AllFetched(base: World, s: Server) {
    && FetchInv(base, s.world.players, s.sessions, s.owner, s.world.players.Keys)
    && OfflineFetched(base, s.world.players, s.disk)
  }

  lemma AgreesFetched(base: World, kept: PlayerState, p: PlayerState)
    requires Agrees(kept, p)
    ensures Fetched(base, kept, Nothing) <==> Fetched(base, p, Nothing)
  {
    if kept.(room := "") == p {
      assert forall q :: Carries(base, p, q) <==> Carries(base, kept, q);
    }
  }

  lemma FilesStay(base: World, s: Server, s': Server)
    requires OfflineFetched(base, s.world.players, s.disk) && s'.disk == s.disk && s.world.players.Keys <= s'.world.players.Keys
    ensures OfflineFetched(base, s'.world.players, s'.disk)
  {
    hide Fetched;
  }

  lemma SaveAllFetched(base: World, s: Server, sid: nat)
    requires Inv(base, s) && DiskInv(s, sid) && AllFetched(base, s) && sid in s.sessions && HasSave(s.sessions[sid].pc)
    ensures AllFetched(base, DoSave(s, sid))
  {
    hide WorldOk, StatesInv, LoginInv, NamesInv, FirstLoginInv, FlipInv, GroupsAgree, GroupLogInv, FetchInv, Fetched, OnlyBusy, WriteThrough,
         LogoutKept, Agrees, After;
    SaveFetch(base, s, sid, s.world.players.Keys);
    var pc := s.sessions[sid].pc;
    var front := pc.saves[0];
    if pc.Leaving? {
      AgreesFetched(base, s.disk[front.id], front);
    }
  }

  lemma LoginAllFetched(base: World, s: Server, sid: nat)
    requires Inv(base, s) && DiskInv(s, sid) && AllFetched(base, s) && sid in s.sessions && s.sessions[sid].pc.Found?
    ensures AllFetched(base, DoLogin(s, sid))
  {
    hide WorldOk, StatesInv, LoginInv, NamesInv, FirstLoginInv, FlipInv, GroupsAgree, GroupLogInv, FetchInv, Fetched, DiskInv, DoLogin;
    var s', name := DoLogin(s, sid), s.sessions[sid].pc.name;
    LoginFetch(base, s, sid, s.world.players.Keys);
    LoginShape(s, sid);
    LoginDisk(base, s, sid);
    FilesStay(base, s, s');
    if name in s.world.players {
      assert s'.world.players.Keys == s.world.players.Keys;
    } else {
      ComesIdle(s, sid);
      NewcomerFetches(base, s'.world.players, s'.sessions, s'.owner, s.world.players.Keys, name);
      assert s'.world.players.Keys == s.world.players.Keys + {name};
    }
  }

  lemma ComesIdle(s: Server, sid: nat)
    requires sid in s.sessions && s.sessions[sid].pc.Found? && s.sessions[sid].pc.name !in s.world.players
    ensures
      var s', name := DoLogin(s, sid), s.sessions[sid].pc.name;
      Pending(s'.sessions, s'.owner, name) == Nothing && name in s'.world.players
  {
    hide InitQuests;
  }

  lemma DisconnectAllFetched(base: World, s: Server, sid: nat)
    requires Inv(base, s) && DiskInv(s, sid) && AllFetched(base, s) && sid in s.sessions && s.sessions[sid].pc.Idle?
    requires s.sessions[sid].player != ""
    ensures AllFetched(base, DoDisconnect(s, sid))
  {
    hide WorldOk, StatesInv, LoginInv, NamesInv, FirstLoginInv, FlipInv, GroupsAgree, GroupLogInv, FetchInv, Fetched, DiskInv, DoDisconnect,
         Depart, Agrees;
    var s', name := DoDisconnect(s, sid), s.sessions[sid].player;
    DisconnectFetch(base, s, sid, s.world.players.Keys);
    DisconnectShape(s, sid);
    DisconnectDisk(base, s, sid);
    LiveIsReady(base, s, sid);
    DepartKeeps(s.world, name);
    IdlePlayer(base, s, sid, s.world.players.Keys);
    AgreesFetched(base, s.disk[name], s.world.players[name]);
    FewerFetch(base, s', s.world.players.Keys, s'.world.players.Keys);
  }

  /** Steps that touch neither the set of players, but for a creation, nor the files. */
  lemma OtherAllFetched(base: World, s: Server, a: Action)
    requires Loaded(base) && Inv(base, s) && Enabled(s, a) && AllFetched(base, s)
    requires !a.Login? && !a.Save? && (a.Disconnect? ==> s.sessions[a.sid].player == "")
    ensures AllFetched(base, Step(s, a))
  {
    hide Loaded, Inv, Enabled, Step, FetchInv, Fetched, OfflineFetched;
    StepFetch(base, s, a, s.world.players.Keys);
    OtherKeepsFiles(base, s, a);
    FilesStay(base, s, Step(s, a));
    var s' := Step(s, a);
    if a.Create? {
      assert s.world.players.Keys + (s'.world.players.Keys - s.world.players.Keys) == s'.world.players.Keys;
    }
  }

  lemma OtherKeepsFiles(base: World, s: Server, a: Action)
    requires Loaded(base) && Inv(base, s) && Enabled(s, a)
    requires !a.Login? && !a.Save? && (a.Disconnect? ==> s.sessions[a.sid].player == "")
    ensures Step(s, a).disk == s.disk && s.world.players.Keys <= Step(s, a).world.players.Keys
    ensures !a.Create? ==> Step(s, a).world.players.Keys == s.world.players.Keys
  {
    hide Loaded, Inv, CanHandle, CanFollowUp, Run, OnItemTaken, OnNpcDefeated, Commit, IsValidName, InitQuests, Depart, JoinFrom, DoCreate,
         DoHandle, DoFollowUp;
    match a {
      case Create(sid, args) =>
        if DoCreate(s, sid, args) != s {
          CreateShape(s, sid, args);
        }
      case Handle(sid, command) => HandleKeepsKeys(base, s, sid, command);
      case FollowUp(sid, qs, ps) => FollowUpKeepsKeys(base, s, sid, qs, ps);
      case _ =>
    }
  }

  lemma HandleKeepsKeys(base: World, s: Server, sid: nat, command: Command)
    requires Loaded(base) && Inv(base, s) && CanHandle(s, sid, command)
    ensures DoHandle(s, sid, command).disk == s.disk && DoHandle(s, sid, command).world.players.Keys == s.world.players.Keys
  {
    hide Loaded, WorldOk, StatesInv, LoginInv, NamesInv, FirstLoginInv, FlipInv, GroupsAgree, GroupLogInv, Run, Commit, Tame, PlayersGood,
         FairRoll;
    if s.sessions[sid].player != "" {
      var o := Run(s.world, s.sessions[sid].player, s.sessions[sid].room, command);
      LiveIsReady(base, s, sid);
      RunIsTame(base, s.world, s.sessions[sid], command);
      TameKeys(base, s.world, s.sessions[sid].player, o);
      CommitShape(s, sid, o, HandledEvent(s, sid, command));
    }
  }

  lemma FollowUpKeepsKeys(base: World, s: Server, sid: nat, questOrder: seq<string>, playerOrder: seq<string>)
    requires Loaded(base) && Inv(base, s) && CanFollowUp(s, sid, questOrder, playerOrder)
    ensures
      var s' := DoFollowUp(s, sid, questOrder, playerOrder);
      s'.disk == s.disk && s'.world.players.Keys == s.world.players.Keys
  {
    hide Loaded, WorldOk, StatesInv, LoginInv, NamesInv, FirstLoginInv, FlipInv, GroupsAgree, GroupLogInv, Commit, Tame, Completes,
         PlayersGood, IsOrderOf, OnItemTaken, OnNpcDefeated;
    if s.sessions[sid].pc.follow != Nothing {
      var o := FollowUpOutcome(s, sid, questOrder, playerOrder);
      SavingIsLoggedIn(base, s, sid);
      LiveIsReady(base, s, sid);
      FollowUpIsTame(base, s, sid, questOrder, playerOrder);
      TameKeys(base, s.world, s.sessions[sid].player, o);
      CommitShape(s, sid, o, NoEvent);
    }
  }

  lemma StepAllFetched(base: World, s: Server, a: Action, b: nat, c: nat)
    requires Loaded(base) && Inv(base, s) && Enabled(s, a) && DiskInv(s, b) && AllFetched(base, s)
    requires OnlyBusy(Step(s, a).sessions, c)
    ensures AllFetched(base, Step(s, a))
  {
    hide Loaded, Inv, DiskInv, AllFetched, OnlyBusy, CanHandle, CanFollowUp, DoCreate, DoConnect, DoReadFile, DoLogin, DoHandle, DoSave,
         DoFollowUp, DoDisconnect;
    if a.Login? || a.Save? || (a.Disconnect? && s.sessions[a.sid].player != "") {
      StepperDisk(base, s, a, b, c);
    } else {
      OtherAllFetched(base, s, a);
    }
    match a {
      case Login(sid) => LoginAllFetched(base, s, sid);
      case Save(sid) => SaveAllFetched(base, s, sid);
      case Disconnect(sid) => if s.sessions[sid].player != "" { DisconnectAllFetched(base, s, sid); }
      case _ =>
    }
  }

  lemma {:induction false} SerialFetch(base: World, s: Server, run: seq<Action>)
    requires Loaded(base) && Inv(base, s) && SerialInv(s) && AllFetched(base, s) && CanRunSerially(s, run)
    ensures CanRun(s, run) && Inv(base, Exec(s, run)) && SerialInv(Exec(s, run)) && AllFetched(base, Exec(s, run))
    decreases |run|
  {
    hide Inv, Loaded, Step, Enabled, DiskInv, ItemsInv, OnlyBusy, AllFetched;
    if run != [] {
      var a, next := run[0], Step(s, run[0]);
      var b :| DiskInv(s, b);
      assert OneAtATime(next);
      var c :| OnlyBusy(next.sessions, c);
      StepKeeps(base, s, a);
      StepDisk(base, s, a, b, c);
      StepItems(base, s, a, b, c);
      StepAllFetched(base, s, a, b, c);
      SerialFetch(base, next, run[1..]);
    }
  }

  /** In command-atomic runs, once all threads are at rest, whoever is online and carries the target of a fetch
      quest has that quest completed, in memory and on disk; so has every offline character on disk. */
  lemma FetchedMeansCompleted(base: World, run: seq<Action>, p: string, q: string)
    requires Loaded(base) && CanRunSerially(Start(base), run) && q in base.quests && base.quests[q].kind.Fetch?
    ensures
      CanRun(Start(base), run) &&
      var s := Exec(Start(base), run);
      AllAtRest(s) ==>
        && (p in s.world.players && base.quests[q].target in s.world.players[p].inventory ==>
              q in s.world.players[p].quests && s.world.players[p].quests[q] == COMPLETED)
        && (p in s.disk && base.quests[q].target in s.disk[p].inventory ==>
              q in s.disk[p].quests && s.disk[p].quests[q] == COMPLETED)
  {
    hide Loaded, Start, CanRunSerially, CanRun, Exec, SerialInv, FetchInv, OfflineFetched, StatesInv, LoginInv, NamesInv, FirstLoginInv, FlipInv,
         GroupsAgree, GroupLogInv, WorldOk;
    LoadedIsFresh(base);
    StartInv(base);
    SerialStart(base);
    StartFetch(base);
    NoFiles(base, Start(base));
    SerialFetch(base, Start(base), run);
    var s := Exec(Start(base), run);
    if AllAtRest(s) {
      if p in s.world.players {
        AtRestIsSettled(base, s, p, q);
        FilesMatchMemory(base, run, p);
      } else if p in s.disk {
        OfflineIsSettled(base, s, p, q);
      }
    }
  }

  lemma LoadedIsFresh(base: World)
    requires Loaded(base)
    ensures Fresh(base)
  {
    hide Checked, Assumed, Fresh;
  }

  lemma NoFiles(base: World, s: Server)
    requires s.disk == map[] && s.world.players.Keys == {} && FetchInv(base, s.world.players, s.sessions, s.owner, {})
    ensures AllFetched(base, s)
  {
    hide Fetched;
  }

  lemma QuestIsListed(base: World, npcs: map<string, Npc>, name: string, p: PlayerState, q: string)
    requires Good(base, npcs, name, p) && q in base.quests
    ensures q in p.quests
  {
    hide Sound, Reached;
  }

  lemma AtRestIsSettled(base: World, s: Server, p: string, q: string)
    requires Inv(base, s) && AllFetched(base, s) && AllAtRest(s) && p in s.world.players && q in base.quests && base.quests[q].kind.Fetch?
    ensures q in s.world.players[p].quests
    ensures base.quests[q].target in s.world.players[p].inventory ==> s.world.players[p].quests[q] == COMPLETED
  {
    hide WorldOk, LoginInv, NamesInv, FirstLoginInv, FlipInv, GroupsAgree, GroupLogInv, PcsGood, OfflineFetched, FetchInv, Good;
    assert Good(base, s.world.npcs, p, s.world.players[p]);
    QuestIsListed(base, s.world.npcs, p, s.world.players[p], q);
    OwnerIsLive(s.sessions, s.world.players, s.owner, p);
    if base.quests[q].target in s.world.players[p].inventory {
      CarriedIsSettled(base, s, s.world.players.Keys, p, q);
    }
  }

  lemma OfflineIsSettled(base: World, s: Server, p: string, q: string)
    requires Inv(base, s) && AllFetched(base, s) && p in s.disk && p !in s.world.players && q in base.quests && base.quests[q].kind.Fetch?
    ensures q in s.disk[p].quests
    ensures base.quests[q].target in s.disk[p].inventory ==> s.disk[p].quests[q] == COMPLETED
  {
    hide WorldOk, LoginInv, NamesInv, FirstLoginInv, FlipInv, GroupsAgree, GroupLogInv, PcsGood, FetchInv, Good;
    assert Good(base, s.world.npcs, p, s.disk[p]);
    QuestIsListed(base, s.world.npcs, p, s.disk[p], q);
    if base.quests[q].target in s.disk[p].inventory {
      assert Carries(base, s.disk[p], q);
    }
  }
}
