/** Disk, memory and items along serial runs. */
module SerialProof {
  import opened Lists
  import opened WorldModel
  import opened Sections
  import opened WorldRules
  import opened Completions
  import opened Server
  import opened Invariants
  import opened Commits
  import opened StatesProof
  import opened LoginProof
  import opened StepShapes
  import opened Runs
  import opened Serial

  // ---- queues of saves -----------------------------------------------------------------------

  /** Saving the front of the queue makes it the default for the rest. */
  lemma {:induction false} NewestFront(saves: seq<PlayerState>, p: string, was: PlayerState)
    requires saves != []
    ensures Newest(saves, p, was) == Newest(saves[1..], p, if saves[0].id == p then saves[0] else was)
    decreases |saves|
  {
    if |saves| > 1 && saves[|saves| - 1].id != p {
      NewestFront(saves[..|saves| - 1], p, was);
      assert saves[..|saves| - 1][1..] == saves[1..][..|saves| - 2];
    }
  }

  lemma {:induction false} NewestElsewhere(saves: seq<PlayerState>, p: string, was: PlayerState)
    requires forall i :: 0 <= i < |saves| ==> saves[i].id != p
    ensures Newest(saves, p, was) == was
    decreases |saves|
  {
    if saves != [] {
      NewestElsewhere(saves[..|saves| - 1], p, was);
    }
  }

  /** Either some save of the player is queued, or the default counts. */
  lemma {:induction false} NewestCases(saves: seq<PlayerState>, p: string, a: PlayerState, b: PlayerState)
    ensures Newest(saves, p, a) == Newest(saves, p, b) || (Newest(saves, p, a) == a && Newest(saves, p, b) == b)
    decreases |saves|
  {
    if saves != [] {
      NewestCases(saves[..|saves| - 1], p, a, b);
    }
  }

  // ---- who is busy ---------------------------------------------------------------------------

  lemma Rebase(s: Server, b: nat, c: nat)
    requires DiskInv(s, b) && OnlyBusy(s.sessions, c)
    ensures DiskInv(s, c)
  {
    hide WriteThrough, LogoutKept;
  }

  /** A step of `sid` that ends in the middle of a command means that nobody else was in one. */
  lemma StepperIsBusy(s: Server, s': Server, sid: nat, c: nat)
    requires sid in s'.sessions && s'.sessions == s.sessions[sid := s'.sessions[sid]]
    requires OnlyBusy(s'.sessions, c) && !AtRest(s'.sessions[sid].pc)
    ensures c == sid && OnlyBusy(s.sessions, sid)
  {
    if c != sid {
      assert false;
    }
    forall t | t in s.sessions && t != sid ensures AtRest(s.sessions[t].pc) {
      assert s'.sessions[t] == s.sessions[t];
    }
  }

  /** The same players, except that some may have walked into a room with an empty id. */
  ghost predicate Roams(players: map<string, PlayerState>, players': map<string, PlayerState>) {
    && players'.Keys == players.Keys
    && forall p {:trigger players'[p]} :: p in players ==> players'[p] == players[p] || players'[p] == players[p].(room := "")
  }

  lemma RoamersAgree(players: map<string, PlayerState>, players': map<string, PlayerState>, disk: map<string, PlayerState>, pending: seq<PlayerState>)
    requires WriteThrough(players, disk, pending) && Roams(players, players')
    ensures WriteThrough(players', disk, pending)
  {
    forall p | p in players' ensures Agrees(Newest(pending, p, Stored(disk, p, players'[p])), players'[p]) {
      assert Agrees(Newest(pending, p, Stored(disk, p, players[p])), players[p]);
      NewestCases(pending, p, Stored(disk, p, players[p]), Stored(disk, p, players'[p]));
    }
  }

  lemma SamePlayersRoam(players: map<string, PlayerState>)
    ensures Roams(players, players)
  {
  }

  /** A step of a session at rest that changes no files, and of the players at most a room. */
  lemma RestfulStep(s: Server, s': Server, sid: nat, b: nat)
    requires DiskInv(s, b) && sid in s'.sessions && s'.sessions == s.sessions[sid := s'.sessions[sid]]
    requires AtRest(s'.sessions[sid].pc) && (sid in s.sessions ==> AtRest(s.sessions[sid].pc))
    requires SameFiles(s, s')
    ensures DiskInv(s', b)
  {
    hide WriteThrough;
    if sid == b {
      assert PendingOf(s'.sessions, b) == [] && PendingOf(s.sessions, b) == [];
    }
    RoamersAgree(s.world.players, s'.world.players, s.disk, PendingOf(s.sessions, b));
  }

  // ---- the steps of the busy thread ----------------------------------------------------------

  lemma OthersStayAtRest(sessions: map<nat, Session>, sid: nat, session: Session)
    requires OnlyBusy(sessions, sid)
    ensures OnlyBusy(sessions[sid := session], sid)
  {
  }

  lemma BehavesDisk(base: World, s: Server, sid: nat, o: Outcome, event: GroupEvent)
    requires DiskInv(s, sid) && sid in s.sessions && s.sessions[sid].pc.Idle? && s.sessions[sid].player in s.world.players
    requires Behaves(base, s.world, s.sessions[sid].player, s.sessions[sid].room, o)
    ensures DiskInv(Commit(s, sid, o, event), sid)
  {
    hide MapOk, HpFalls, Deaths, Moves, Sound, Reached, OnlyBusy, Recorded, Flipped, Moved, WriteThrough, LogoutKept, Newest;
    var pid := s.sessions[sid].player;
    var s' := Commit(s, sid, o, event);
    OthersStayAtRest(s.sessions, sid, s'.sessions[sid]);
    assert PendingOf(s.sessions, sid) == [];
    if o.saves != [] {
      var p' :| Change(base, s.world, o.world, pid, s.world.players[pid], p', o.follow, o.transfer) && o.saves == [p'];
      assert PendingOf(s'.sessions, sid) == [p'];
      WriteOne(s.world.players, s.disk, pid, p');
      LogoutStays(s.world.players, o.world.players, s.disk, s.logout, [p']);
    } else {
      QuietRoams(base, s.world, pid, s.sessions[sid].room, o);
      assert PendingOf(s'.sessions, sid) == [];
      RoamersAgree(s.world.players, o.world.players, s.disk, []);
      LogoutStays(s.world.players, o.world.players, s.disk, s.logout, []);
    }
  }

  lemma BehavesSpeaks(base: World, w: World, pid: string, room: string, o: Outcome)
    requires pid in w.players && Behaves(base, w, pid, room, o)
    ensures o.Outcome?
  {
    hide Change;
  }

  /** A handler that queues nothing has at most moved its player into a room with an empty id. */
  lemma QuietRoams(base: World, w: World, pid: string, room: string, o: Outcome)
    requires pid in w.players && Behaves(base, w, pid, room, o) && o.saves == []
    ensures Roams(w.players, o.world.players) && o.follow == Nothing
  {
    hide MapOk, HpFalls, Deaths, Moves, StateOk, Reached;
    if o.world != w {
      var p' :| Change(base, w, o.world, pid, w.players[pid], p', o.follow, o.transfer) && MovedNowhere(w.players[pid], p', o);
      assert o.world.players == w.players[pid := p'];
    }
  }

  lemma WriteOne(players: map<string, PlayerState>, disk: map<string, PlayerState>, pid: string, p': PlayerState)
    requires WriteThrough(players, disk, []) && p'.id == pid
    ensures WriteThrough(players[pid := p'], disk, [p'])
  {
    var players' := players[pid := p'];
    forall p | p in players' ensures Agrees(Newest([p'], p, Stored(disk, p, players'[p])), players'[p]) {
      NewestAppend([], p', p, Stored(disk, p, players'[p]));
      assert [] + [p'] == [p'];
      if p != pid {
        assert Agrees(Newest([], p, Stored(disk, p, players[p])), players[p]);
      }
    }
  }

  lemma LogoutStays(
    players: map<string, PlayerState>, players': map<string, PlayerState>, disk: map<string, PlayerState>,
    logout: map<string, PlayerState>, saves: seq<PlayerState>)
    requires LogoutKept(players, disk, logout, []) && players.Keys <= players'.Keys
    requires forall i {:trigger saves[i]} :: 0 <= i < |saves| ==> saves[i].id in players'
    ensures LogoutKept(players', disk, logout, saves)
  {
    forall n | n in logout && n !in players' ensures n in disk && Newest(saves, n, disk[n]) == logout[n] {
      assert Newest([], n, disk[n]) == logout[n];
      NewestElsewhere(saves, n, disk[n]);
    }
  }

  lemma GroupOnlyDisk(s: Server, sid: nat, o: Outcome, event: GroupEvent)
    requires DiskInv(s, sid) && sid in s.sessions && s.sessions[sid].pc.Idle?
    requires GroupOnly(s.world, s.sessions[sid].room, o)
    ensures DiskInv(Commit(s, sid, o, event), sid) && AtRest(Commit(s, sid, o, event).sessions[sid].pc)
  {
    hide OnlyBusy, Recorded, Flipped, Moved, WriteThrough, LogoutKept;
    var s' := Commit(s, sid, o, event);
    OthersStayAtRest(s.sessions, sid, s'.sessions[sid]);
    assert PendingOf(s'.sessions, sid) == PendingOf(s.sessions, sid);
  }

  /** However many quests a kill completes, for however many players, the last queued copy of each
      player is the player's present state. */
  lemma CompletesDisk(base: World, s: Server, sid: nat, o: Outcome, done: set<string>)
    requires DiskInv(s, sid) && sid in s.sessions && s.sessions[sid].pc.Saving? && s.sessions[sid].pc.saves == []
    requires Completes(base, s.world, s.sessions[sid].room, o, done)
    ensures DiskInv(Commit(s, sid, o, NoEvent), sid)
  {
    hide OnlyBusy, Recorded, Flipped, Moved, Advances, AllCleared;
    var s' := Commit(s, sid, o, NoEvent);
    OthersStayAtRest(s.sessions, sid, s'.sessions[sid]);
    assert PendingOf(s'.sessions, sid) == o.saves;
    forall p | p in o.world.players ensures Agrees(Newest(o.saves, p, Stored(s.disk, p, o.world.players[p])), o.world.players[p]) {
      assert Agrees(Newest([], p, Stored(s.disk, p, s.world.players[p])), s.world.players[p]);
      assert Newest(o.saves, p, s.world.players[p]) == o.world.players[p];
      NewestCases(o.saves, p, s.world.players[p], Stored(s.disk, p, o.world.players[p]));
    }
    forall i | 0 <= i < |o.saves| ensures o.saves[i].id in o.world.players {
      assert Pass(o.world.players, o.saves).saves[i] == o.saves[i];
    }
    LogoutStays(s.world.players, o.world.players, s.disk, s.logout, o.saves);
  }

  lemma CreateDisk(s: Server, sid: nat, args: seq<string>)
    requires DiskInv(s, sid) && sid in s.sessions && s.sessions[sid].pc.Idle?
    ensures DiskInv(DoCreate(s, sid, args), sid)
  {
    hide OnlyBusy, IsValidName, InitQuests, WriteThrough, LogoutKept;
    var s' := DoCreate(s, sid, args);
    if s' != s {
      var p := s'.world.players[args[0]];
      InitQuestsId(s.world, args[0], if |args| > 1 then args[1] else "", JoinFrom(args, 2));
      OthersStayAtRest(s.sessions, sid, s'.sessions[sid]);
      WriteOne(s.world.players, s.disk, args[0], p);
      LogoutStays(s.world.players, s'.world.players, s.disk, s.logout, [p]);
    }
  }

  lemma ConnectDisk(s: Server, sid: nat, args: seq<string>)
    requires DiskInv(s, sid) && sid in s.sessions && s.sessions[sid].pc.Idle?
    ensures DiskInv(DoConnect(s, sid, args), sid)
  {
    hide OnlyBusy, IsValidName, WriteThrough, LogoutKept;
    OthersStayAtRest(s.sessions, sid, DoConnect(s, sid, args).sessions[sid]);
  }

  lemma ReadFileDisk(s: Server, sid: nat)
    requires DiskInv(s, sid) && sid in s.sessions && s.sessions[sid].pc.Seeking?
    ensures DiskInv(DoReadFile(s, sid), sid)
  {
    hide OnlyBusy, WriteThrough, LogoutKept;
    OthersStayAtRest(s.sessions, sid, DoReadFile(s, sid).sessions[sid]);
  }

  /** A login puts the file's state, which is the state at logout, back into the world. */
  lemma LoginDisk(base: World, s: Server, sid: nat)
    requires Inv(base, s) && DiskInv(s, sid) && sid in s.sessions && s.sessions[sid].pc.Found?
    ensures DiskInv(DoLogin(s, sid), sid)
    ensures
      var name := s.sessions[sid].pc.name;
      name !in s.world.players ==>
        && name in s.disk && DoLogin(s, sid).world.players[name] == s.disk[name]
        && (name in s.logout ==> DoLogin(s, sid).world.players[name] == s.logout[name])
  {
    hide MapOk, StatesInv, LoginInv, NamesInv, FirstLoginInv, FlipInv, GroupsAgree, GroupLogInv, InitQuests, OnlyBusy, StateOk;
    var name, loaded := s.sessions[sid].pc.name, s.sessions[sid].pc.state;
    var s' := DoLogin(s, sid);
    OthersStayAtRest(s.sessions, sid, s'.sessions[sid]);
    FoundIsGood(base, s, sid);
    QuestKeys(base, name, loaded);
    InitQuestsSame(s.world, loaded);
    if name !in s.world.players {
      forall p | p in s'.world.players ensures Agrees(Newest([], p, Stored(s.disk, p, s'.world.players[p])), s'.world.players[p]) {
        if p != name {
          assert Agrees(Newest([], p, Stored(s.disk, p, s.world.players[p])), s.world.players[p]);
        }
      }
      LogoutStays(s.world.players, s'.world.players, s.disk, s.logout, []);
    }
  }

  lemma QuestKeys(base: World, name: string, p: PlayerState)
    requires StateOk(base, name, p)
    ensures p.quests.Keys == base.quests.Keys
  {
  }

  lemma FrontWritten(players: map<string, PlayerState>, disk: map<string, PlayerState>, saves: seq<PlayerState>)
    requires WriteThrough(players, disk, saves) && saves != []
    ensures WriteThrough(players, disk[saves[0].id := saves[0]], saves[1..])
  {
    var disk' := disk[saves[0].id := saves[0]];
    forall p | p in players ensures Agrees(Newest(saves[1..], p, Stored(disk', p, players[p])), players[p]) {
      NewestFront(saves, p, Stored(disk, p, players[p]));
    }
  }

  lemma LogoutWritten(
    players: map<string, PlayerState>, disk: map<string, PlayerState>, logout: map<string, PlayerState>, saves: seq<PlayerState>)
    requires LogoutKept(players, disk, logout, saves) && saves != []
    ensures LogoutKept(players, disk[saves[0].id := saves[0]], logout, saves[1..])
  {
    var disk' := disk[saves[0].id := saves[0]];
    forall n | n in logout && n !in players ensures n in disk' && Newest(saves[1..], n, disk'[n]) == logout[n] {
      NewestFront(saves, n, disk[n]);
    }
  }

  lemma SaveDisk(s: Server, sid: nat)
    requires DiskInv(s, sid) && sid in s.sessions && HasSave(s.sessions[sid].pc)
    ensures DiskInv(DoSave(s, sid), sid)
    ensures s.sessions[sid].pc.Leaving? ==>
              var p := s.sessions[sid].pc.saves[0];
              p.id in s.disk && Agrees(s.disk[p.id], p) && DoSave(s, sid).disk == s.disk[p.id := p]
  {
    hide OnlyBusy, After, WriteThrough, LogoutKept;
    var pc, players := s.sessions[sid].pc, s.world.players;
    var s' := DoSave(s, sid);
    var rest := pc.saves[1..];
    OthersStayAtRest(s.sessions, sid, s'.sessions[sid]);
    AfterPending(rest, if pc.Saving? then pc.follow else Nothing);
    FrontWritten(players, s.disk, pc.saves);
    assert PendingOf(s'.sessions, sid) == rest;
    LogoutWritten(players, s.disk, s.logout, pc.saves);
    assert forall i :: 0 <= i < |rest| ==> rest[i] == pc.saves[i + 1];
  }

  lemma AfterPending(saves: seq<PlayerState>, follow: Follow)
    ensures PendingSaves(After(saves, follow)) == saves
    ensures After(saves, follow).Saving? || After(saves, follow).Idle?
    ensures After(saves, follow).Saving? ==> After(saves, follow).saves == saves
  {
  }

  lemma DisconnectDisk(base: World, s: Server, sid: nat)
    requires Inv(base, s) && DiskInv(s, sid) && sid in s.sessions && s.sessions[sid].pc.Idle?
    ensures DiskInv(DoDisconnect(s, sid), sid)
    ensures s.sessions[sid].player in s.world.players ==>
              s.sessions[sid].player in s.disk && Agrees(s.disk[s.sessions[sid].player], s.world.players[s.sessions[sid].player])
  {
    hide WorldOk, StatesInv, LoginInv, NamesInv, FirstLoginInv, FlipInv, GroupsAgree, GroupLogInv, OnlyBusy, Depart, Saves,
         DoDisconnect, WriteThrough, LogoutKept;
    var name := s.sessions[sid].player;
    var s' := DoDisconnect(s, sid);
    DisconnectShape(s, sid);
    OthersStayAtRest(s.sessions, sid, s'.sessions[sid]);
    DepartKeeps(s.world, name);
    SessionIsOk(s.sessions, s.world.players, s.owner, sid);
    if name in s.world.players {
      IdleIsOnDisk(base, s, sid);
      OnDiskAgrees(s.world.players, s.disk, name);
      PlayerIds(base, s);
      if name != "" {
        RestWritten(s.world.players, s.disk, name, [s.world.players[name]]);
        LeaverKept(s.world.players, s.disk, s.logout, name, s.world.players[name]);
      }
    }
  }

  lemma OnDiskAgrees(players: map<string, PlayerState>, disk: map<string, PlayerState>, name: string)
    requires WriteThrough(players, disk, []) && name in players && name in disk
    ensures Agrees(disk[name], players[name])
  {
    assert Agrees(Newest([], name, Stored(disk, name, players[name])), players[name]);
  }

  lemma IdleIsOnDisk(base: World, s: Server, sid: nat)
    requires Inv(base, s) && sid in s.sessions && s.sessions[sid].pc.Idle? && s.sessions[sid].player in s.world.players
    ensures s.sessions[sid].player in s.disk
  {
    hide WorldOk, StatesInv, NamesInv, LoginInv, FirstLoginInv, FlipInv, GroupsAgree, GroupLogInv, Saves;
    AllAnchored(s);
    var name := s.sessions[sid].player;
    assert Anchored(s, name);
    SessionIsOk(s.sessions, s.world.players, s.owner, sid);
    NoEmptyName(s);
  }

  lemma NoEmptyName(s: Server)
    requires LoginInv(s.sessions, s.world.players, s.owner)
    ensures "" !in s.world.players
  {
  }

  lemma RestWritten(players: map<string, PlayerState>, disk: map<string, PlayerState>, name: string, saves: seq<PlayerState>)
    requires WriteThrough(players, disk, []) && forall i :: 0 <= i < |saves| ==> saves[i].id == name
    ensures WriteThrough(players - {name}, disk, saves)
  {
    forall p | p in players - {name} ensures Agrees(Newest(saves, p, Stored(disk, p, players[p])), players[p]) {
      assert Agrees(Newest([], p, Stored(disk, p, players[p])), players[p]);
      NewestElsewhere(saves, p, Stored(disk, p, players[p]));
    }
  }

  lemma LeaverKept(
    players: map<string, PlayerState>, disk: map<string, PlayerState>, logout: map<string, PlayerState>, name: string, p: PlayerState)
    requires LogoutKept(players, disk, logout, []) && name in disk && p.id == name
    ensures LogoutKept(players - {name}, disk, logout[name := p], [p])
  {
    forall n | n in logout[name := p] && n !in players - {name} ensures n in disk && Newest([p], n, disk[n]) == logout[name := p][n] {
      NewestAppend([], p, n, disk[n]);
      assert [] + [p] == [p];
      if n != name {
        assert Newest([], n, disk[n]) == logout[n];
      }
    }
  }

  // ---- every serial step ---------------------------------------------------------------------

  ghost predicate SameFiles(s: Server, s': Server) {
    Roams(s.world.players, s'.world.players) && s'.disk == s.disk && s'.logout == s.logout
  }

  /** One command step by a session that comes to rest at once. */
  lemma HandleAtRest(base: World, s: Server, sid: nat, command: Command)
    requires Loaded(base) && Inv(base, s) && sid in s.sessions && s.sessions[sid].pc.Idle?
    requires AreTokens(Args(command)) && FairRoll(s.world, s.sessions[sid], command)
    requires var s' := DoHandle(s, sid, command); sid in s'.sessions && AtRest(s'.sessions[sid].pc)
    ensures SameFiles(s, DoHandle(s, sid, command))
  {
    hide WorldOk, StatesInv, LoginInv, NamesInv, FirstLoginInv, FlipInv, GroupsAgree, GroupLogInv, Run, Loaded, FairRoll,
         PlayersGood, Recorded, Flipped, Moved, Behaves, Roams;
    var session := s.sessions[sid];
    SamePlayersRoam(s.world.players);
    if session.player != "" {
      LiveIsReady(base, s, sid);
      if IsGroupCommand(command) {
        GroupRunOnly(s.world, session.player, session.room, command);
      } else {
        RunBehaves(base, s.world, session, command);
        BehavesSpeaks(base, s.world, session.player, session.room, Run(s.world, session.player, session.room, command));
        QuietRoams(base, s.world, session.player, session.room, Run(s.world, session.player, session.room, command));
      }
    }
  }

  lemma HandleDisk(base: World, s: Server, sid: nat, command: Command)
    requires Loaded(base) && Inv(base, s) && CanHandle(s, sid, command) && DiskInv(s, sid)
    ensures DiskInv(DoHandle(s, sid, command), sid)
  {
    hide WorldOk, StatesInv, LoginInv, NamesInv, FirstLoginInv, FlipInv, GroupsAgree, GroupLogInv, Run, Loaded, FairRoll,
         PlayersGood, Commit, Behaves, GroupOnly, DiskInv;
    var session := s.sessions[sid];
    if session.player != "" {
      var o := Run(s.world, session.player, session.room, command);
      LiveIsReady(base, s, sid);
      if IsGroupCommand(command) {
        GroupRunOnly(s.world, session.player, session.room, command);
        GroupOnlyDisk(s, sid, o, HandledEvent(s, sid, command));
      } else {
        RunBehaves(base, s.world, session, command);
        BehavesDisk(base, s, sid, o, HandledEvent(s, sid, command));
      }
    }
  }

  lemma FollowUpDisk(base: World, s: Server, sid: nat, questOrder: seq<string>, playerOrder: seq<string>)
    requires Loaded(base) && Inv(base, s) && CanFollowUp(s, sid, questOrder, playerOrder) && DiskInv(s, sid)
    ensures DiskInv(DoFollowUp(s, sid, questOrder, playerOrder), sid)
  {
    hide WorldOk, StatesInv, LoginInv, NamesInv, FirstLoginInv, FlipInv, GroupsAgree, GroupLogInv, Tame, Loaded,
         PlayersGood, Commit, IsOrderOf, OnItemTaken, OnNpcDefeated, Completes, DiskInv;
    var session := s.sessions[sid];
    if session.pc.follow != Nothing {
      assert session.player != "" by { SessionIsOk(s.sessions, s.world.players, s.owner, sid); }
      LiveIsReady(base, s, sid);
      FollowUpIsTame(base, s, sid, questOrder, playerOrder);
      CompletesDisk(base, s, sid, FollowUpOutcome(s, sid, questOrder, playerOrder), FollowUpQuests(s, sid));
    }
  }

  /** The step of the thread that is, or becomes, the only busy one. */
  lemma BusyStepDisk(base: World, s: Server, a: Action)
    requires Loaded(base) && Inv(base, s) && Enabled(s, a) && DiskInv(s, a.sid) && !a.Accept?
    ensures DiskInv(Step(s, a), a.sid)
  {
    hide Inv, Loaded, DiskInv, DoCreate, DoConnect, DoReadFile, DoLogin, DoHandle, DoSave, DoFollowUp, DoDisconnect, FairRoll;
    match a {
      case Create(sid, args) => CreateDisk(s, sid, args);
      case Connect(sid, args) => ConnectDisk(s, sid, args);
      case ReadFile(sid) => ReadFileDisk(s, sid);
      case Login(sid) => LoginDisk(base, s, sid);
      case Handle(sid, command) => HandleDisk(base, s, sid, command);
      case Save(sid) => SaveDisk(s, sid);
      case FollowUp(sid, qs, ps) => FollowUpDisk(base, s, sid, qs, ps);
      case Disconnect(sid) => DisconnectDisk(base, s, sid);
    }
  }

  ghost predicate OneSession(s: Server, s': Server, sid: nat) {
    sid in s'.sessions && s'.sessions == s.sessions[sid := s'.sessions[sid]]
  }

  lemma SameIsOneSession(s: Server, s': Server, sid: nat)
    requires s'.sessions == s.sessions && sid in s.sessions
    ensures OneSession(s, s', sid)
  {
  }

  lemma CommitTouches(s: Server, sid: nat, o: Outcome, event: GroupEvent)
    requires sid in s.sessions
    ensures OneSession(s, Commit(s, sid, o, event), sid)
  {
    hide Flipped, Recorded, Moved, After;
    SameIsOneSession(s, s, sid);
  }

  lemma CreateTouches(s: Server, sid: nat, args: seq<string>)
    requires sid in s.sessions
    ensures OneSession(s, DoCreate(s, sid, args), sid)
  {
    hide IsValidName, InitQuests, OneSession;
    SameIsOneSession(s, s, sid);
    if DoCreate(s, sid, args) != s {
      OneSessionSet(s, DoCreate(s, sid, args), sid);
    }
  }

  lemma OneSessionSet(s: Server, s': Server, sid: nat)
    requires sid in s'.sessions && s'.sessions == s.sessions[sid := s'.sessions[sid]]
    ensures OneSession(s, s', sid)
  {
  }

  lemma ConnectTouches(s: Server, sid: nat, args: seq<string>)
    requires sid in s.sessions
    ensures OneSession(s, DoConnect(s, sid, args), sid)
    ensures s.sessions[sid].pc.Seeking? ==> OneSession(s, DoReadFile(s, sid), sid)
  {
    hide IsValidName;
    SameIsOneSession(s, s, sid);
  }

  lemma LoginTouches(s: Server, sid: nat)
    requires sid in s.sessions && s.sessions[sid].pc.Found?
    ensures OneSession(s, DoLogin(s, sid), sid)
  {
    hide InitQuests;
  }

  lemma SaveTouches(s: Server, sid: nat)
    requires sid in s.sessions && HasSave(s.sessions[sid].pc)
    ensures OneSession(s, DoSave(s, sid), sid)
  {
    hide After;
  }

  lemma DisconnectTouches(s: Server, sid: nat)
    requires sid in s.sessions
    ensures OneSession(s, DoDisconnect(s, sid), sid)
  {
    hide Depart;
  }

  lemma HandleTouches(s: Server, sid: nat, command: Command)
    requires sid in s.sessions
    ensures OneSession(s, DoHandle(s, sid, command), sid)
  {
    hide OneSession, Commit, Run;
    SameIsOneSession(s, s, sid);
    CommitTouches(s, sid, Run(s.world, s.sessions[sid].player, s.sessions[sid].room, command), HandledEvent(s, sid, command));
  }

  lemma FollowUpTouches(s: Server, sid: nat, questOrder: seq<string>, playerOrder: seq<string>)
    requires sid in s.sessions && s.sessions[sid].pc.Saving?
    ensures OneSession(s, DoFollowUp(s, sid, questOrder, playerOrder), sid)
  {
    hide OneSession, Commit, OnItemTaken, OnNpcDefeated;
    SameIsOneSession(s, s, sid);
    if s.sessions[sid].pc.follow != Nothing {
      CommitTouches(s, sid, FollowUpOutcome(s, sid, questOrder, playerOrder), NoEvent);
    }
  }

  lemma StepTouchesOneSession(s: Server, a: Action)
    requires Enabled(s, a)
    ensures a.sid in Step(s, a).sessions && Step(s, a).sessions == s.sessions[a.sid := Step(s, a).sessions[a.sid]]
  {
    hide FairRoll, IsOrderOf, DoCreate, DoConnect, DoReadFile, DoLogin, DoHandle, DoSave, DoFollowUp, DoDisconnect;
    match a {
      case Accept(sid) =>
      case Create(sid, args) => CreateTouches(s, sid, args);
      case Connect(sid, args) => ConnectTouches(s, sid, args);
      case ReadFile(sid) => ConnectTouches(s, sid, []);
      case Login(sid) => LoginTouches(s, sid);
      case Handle(sid, command) => HandleTouches(s, sid, command);
      case Save(sid) => SaveTouches(s, sid);
      case FollowUp(sid, qs, ps) => FollowUpTouches(s, sid, qs, ps);
      case Disconnect(sid) => DisconnectTouches(s, sid);
    }
  }

  lemma CreateAtRest(s: Server, sid: nat, args: seq<string>)
    requires sid in s.sessions && sid in DoCreate(s, sid, args).sessions && AtRest(DoCreate(s, sid, args).sessions[sid].pc)
    ensures DoCreate(s, sid, args) == s
  {
    hide IsValidName, InitQuests;
  }

  lemma ConnectAtRest(s: Server, sid: nat, args: seq<string>)
    requires sid in s.sessions
    ensures SameFiles(s, DoConnect(s, sid, args))
  {
    hide IsValidName, Roams;
    SamePlayersRoam(s.world.players);
  }

  lemma DisconnectAtRest(base: World, s: Server, sid: nat)
    requires Inv(base, s) && sid in s.sessions && s.sessions[sid].pc.Idle?
    requires sid in DoDisconnect(s, sid).sessions && AtRest(DoDisconnect(s, sid).sessions[sid].pc)
    ensures SameFiles(s, DoDisconnect(s, sid))
  {
    hide WorldOk, StatesInv, LoginInv, NamesInv, FirstLoginInv, FlipInv, GroupsAgree, GroupLogInv, Depart, Roams;
    SessionIsOk(s.sessions, s.world.players, s.owner, sid);
    SamePlayersRoam(s.world.players);
  }

  /** The step of a session at rest that comes to rest again, while another one may be busy. */
  lemma RestStepDisk(base: World, s: Server, a: Action, b: nat)
    requires Loaded(base) && Inv(base, s) && Enabled(s, a) && DiskInv(s, b)
    requires a.sid in s.sessions ==> AtRest(s.sessions[a.sid].pc)
    requires a.sid in Step(s, a).sessions && AtRest(Step(s, a).sessions[a.sid].pc)
    ensures DiskInv(Step(s, a), b)
  {
    hide Inv, Loaded, DiskInv, FairRoll, IsOrderOf, Roams, AreTokens,
         DoCreate, DoConnect, DoReadFile, DoLogin, DoHandle, DoSave, DoFollowUp, DoDisconnect;
    StepTouchesOneSession(s, a);
    SamePlayersRoam(s.world.players);
    match a {
      case Create(sid, args) => CreateAtRest(s, sid, args);
      case Connect(sid, args) => ConnectAtRest(s, sid, args);
      case Handle(sid, command) => HandleAtRest(base, s, sid, command);
      case Disconnect(sid) => DisconnectAtRest(base, s, sid);
      case _ =>
    }
    RestfulStep(s, Step(s, a), a.sid, b);
  }

  /** Every step of a serial run keeps disk and memory in agreement. */
  lemma StepDisk(base: World, s: Server, a: Action, b: nat, c: nat)
    requires Loaded(base) && Inv(base, s) && Enabled(s, a) && DiskInv(s, b) && OnlyBusy(Step(s, a).sessions, c)
    ensures DiskInv(Step(s, a), c)
  {
    hide Inv, Loaded, DiskInv, Step, Enabled, OnlyBusy;
    var s' := Step(s, a);
    StepTouchesOneSession(s, a);
    if !AtRest(s'.sessions[a.sid].pc) {
      StepperIsBusy(s, s', a.sid, c);
      Rebase(s, b, a.sid);
      NotBusyAfterAccept(s, a);
      BusyStepDisk(base, s, a);
    } else if a.sid == b && a.sid in s.sessions {
      KnownIsNoAccept(s, a);
      BusyStepDisk(base, s, a);
      Rebase(s', b, c);
    } else {
      OthersRest(s, b, a.sid);
      RestStepDisk(base, s, a, b);
      Rebase(s', b, c);
    }
  }

  lemma NotBusyAfterAccept(s: Server, a: Action)
    requires Enabled(s, a) && a.sid in Step(s, a).sessions && !AtRest(Step(s, a).sessions[a.sid].pc)
    ensures !a.Accept?
  {
    hide DoCreate, DoConnect, DoReadFile, DoLogin, DoHandle, DoSave, DoFollowUp, DoDisconnect, FairRoll;
  }

  lemma KnownIsNoAccept(s: Server, a: Action)
    requires Enabled(s, a) && a.sid in s.sessions
    ensures !a.Accept?
  {
    hide FairRoll, IsOrderOf;
  }

  lemma OthersRest(s: Server, b: nat, sid: nat)
    requires DiskInv(s, b)
    ensures sid != b && sid in s.sessions ==> AtRest(s.sessions[sid].pc)
  {
    hide WriteThrough, LogoutKept, BusyOk;
  }
}
