/** Safety over every interleaved run from an empty character directory. */
module Runs {
  import opened Lists
  import opened WorldModel
  import opened Sections
  import opened WorldRules
  import opened Completions
  import opened Server
  import opened StepShapes
  import opened Invariants
  import opened Commits
  import opened StatesProof
  import opened LoginProof
  import opened QuestProof
  import opened GroupProof

  // ---- one step ------------------------------------------------------------------------------

  lemma LoadedParts(base: World)
    requires Loaded(base)
    ensures START_ROOM in base.rooms && NoRewards(base)
  {
    hide ExitsLead, ItemsKnown, ItemsUnique, NpcsKnown, QuestsKnown, UnlocksKnown, NpcsSane, AmountsSane, Fresh;
  }

  lemma AcceptKeeps(base: World, s: Server, sid: nat)
    requires Inv(base, s) && sid !in s.sessions
    ensures Inv(base, SetSession(s, sid, Session("", "", Idle)))
  {
    hide WorldOk, StatesInv, LoginInv, NamesInv, FirstLoginInv, FlipInv, GroupsAgree, GroupLogInv;
    AcceptStates(base, s, sid);
    AcceptLogin(s.sessions, s.world.players, s.owner, sid);
    AcceptNames(s, sid);
    AcceptFirstLogin(base, s, sid);
    AcceptFlips(s, sid);
  }

  lemma AcceptStates(base: World, s: Server, sid: nat)
    requires StatesInv(base, s) && sid !in s.sessions
    ensures StatesInv(base, SetSession(s, sid, Session("", "", Idle)))
  {
    hide PlayersGood;
    PcUpdateGood(base, s.world.npcs, s.sessions, sid, Session("", "", Idle));
  }

  lemma CreateKeeps(base: World, s: Server, sid: nat, args: seq<string>)
    requires Loaded(base) && Inv(base, s) && sid in s.sessions && s.sessions[sid].pc.Idle?
    ensures Inv(base, DoCreate(s, sid, args))
  {
    hide MapOk, StatesInv, LoginInv, NamesInv, FirstLoginInv, FlipInv, GroupsAgree, GroupLogInv, Loaded, IsValidName, InitQuests;
    LoadedParts(base);
    CreateStates(base, s, sid, args);
    CreateLogin(s, sid, args);
    CreateNames(s, sid, args);
    CreateFirstLogin(base, s, sid, args);
    CreateFlips(s, sid, args);
    AgreeSameKeys(s.world.players, DoCreate(s, sid, args).world.players, s.world.playerGroup, s.world.groups);
    LogSame(s.world, DoCreate(s, sid, args).world, s.groupLog);
  }

  lemma LogSame(w: World, w': World, log: GroupLog)
    requires GroupLogInv(w, log) && w'.invites == w.invites
    ensures GroupLogInv(w', log)
  {
  }

  lemma ConnectKeeps(base: World, s: Server, sid: nat, args: seq<string>)
    requires Inv(base, s) && sid in s.sessions && s.sessions[sid].pc.Idle?
    ensures Inv(base, DoConnect(s, sid, args))
  {
    hide WorldOk, StatesInv, LoginInv, NamesInv, FirstLoginInv, FlipInv, GroupsAgree, GroupLogInv, IsValidName;
    ConnectStates(base, s, sid, args);
    ConnectLogin(s, sid, args);
    ConnectNames(s, sid, args);
    QuietStep(base, s, DoConnect(s, sid, args), sid);
  }

  /** The quest invariants after a step that changes one thread's place, outside any kill. */
  lemma QuietStep(base: World, s: Server, s': Server, sid: nat)
    requires FirstLoginInv(base, s) && FlipInv(s) && sid in s.sessions && sid in s'.sessions
    requires s'.world == s.world && s'.firstLogin == s.firstLogin && s'.flips == s.flips
    requires s'.sessions == s.sessions[sid := s'.sessions[sid]] && s'.sessions[sid].player == s.sessions[sid].player
    requires Live(s'.sessions[sid]) ==> Live(s.sessions[sid])
    requires s.sessions[sid].pc.Saving? ==>
               || (s'.sessions[sid].pc.Saving? && s'.sessions[sid].pc.follow == s.sessions[sid].pc.follow)
               || s.sessions[sid].pc.follow == Nothing
    ensures FirstLoginInv(base, s') && FlipInv(s')
  {
    hide FirstLoginInv, FlipInv;
    assert s.firstLogin <= s.world.players.Keys by { AllSettled(base, s); }
    FirstLoginUpdate(base, s, s', sid);
    FlipsUpdate(s, s', sid);
  }

  lemma ReadFileKeeps(base: World, s: Server, sid: nat)
    requires Inv(base, s) && sid in s.sessions && s.sessions[sid].pc.Seeking?
    ensures Inv(base, DoReadFile(s, sid))
  {
    hide WorldOk, StatesInv, LoginInv, NamesInv, FirstLoginInv, FlipInv, GroupsAgree, GroupLogInv;
    ReadFileStates(base, s, sid);
    ReadFileLogin(s, sid);
    ReadFileNames(s, sid);
    QuietStep(base, s, DoReadFile(s, sid), sid);
  }

  /** A character file that was found is a good state of a name that is not empty. */
  lemma FoundIsGood(base: World, s: Server, sid: nat)
    requires Inv(base, s) && sid in s.sessions && s.sessions[sid].pc.Found?
    ensures s.sessions[sid].player == "" && StateOk(base, s.sessions[sid].pc.name, s.sessions[sid].pc.state)
  {
    hide WorldOk, NamesInv, FirstLoginInv, FlipInv, GroupsAgree, GroupLogInv, PlayersGood, Sound;
    PcIsGood(base, s, sid);
    SessionIsOk(s.sessions, s.world.players, s.owner, sid);
  }

  lemma LoginFirstLogin(base: World, s: Server, sid: nat)
    requires FirstLoginInv(base, s) && sid in s.sessions && s.sessions[sid].pc.Found?
    ensures FirstLoginInv(base, DoLogin(s, sid))
  {
    hide FirstLoginInv, DoLogin;
    LoginShape(s, sid);
    AllSettled(base, s);
    FirstLoginUpdate(base, s, DoLogin(s, sid), sid);
  }

  lemma LoginWorld(base: World, s: Server, sid: nat)
    requires WorldOk(base, s.world) && FirstLoginInv(base, s) && GroupsFine(s.world, s.groupLog)
    requires sid in s.sessions && s.sessions[sid].pc.Found?
    ensures
      var s' := DoLogin(s, sid);
      && s'.threw == s.threw && WorldOk(base, s'.world) && FirstLoginInv(base, s') && GroupsFine(s'.world, s'.groupLog)
  {
    hide MapOk, FirstLoginInv, GroupsAgree, GroupLogInv, DoLogin;
    LoginShape(s, sid);
    LoginFirstLogin(base, s, sid);
    AgreeSameKeys(s.world.players, DoLogin(s, sid).world.players, s.world.playerGroup, s.world.groups);
    LogSame(s.world, DoLogin(s, sid).world, s.groupLog);
  }

  lemma LoginKeeps(base: World, s: Server, sid: nat)
    requires Inv(base, s) && sid in s.sessions && s.sessions[sid].pc.Found?
    ensures Inv(base, DoLogin(s, sid))
  {
    hide WorldOk, StatesInv, LoginInv, NamesInv, FirstLoginInv, FlipInv, GroupsAgree, GroupLogInv, StateOk, DoLogin;
    FoundIsGood(base, s, sid);
    LoginWorld(base, s, sid);
    LoginStates(base, s, sid);
    LoginLogin(s, sid);
    LoginNames(s, sid);
    LoginFlips(s, sid);
  }

  lemma SaveKeeps(base: World, s: Server, sid: nat)
    requires Inv(base, s) && sid in s.sessions && HasSave(s.sessions[sid].pc)
    ensures Inv(base, DoSave(s, sid))
  {
    hide WorldOk, StatesInv, LoginInv, NamesInv, FirstLoginInv, FlipInv, GroupsAgree, GroupLogInv;
    SaveStates(base, s, sid);
    SaveLogin(s, sid);
    SaveNames(s, sid);
    QuietStep(base, s, DoSave(s, sid), sid);
  }

  lemma DisconnectFirstLogin(base: World, s: Server, sid: nat)
    requires FirstLoginInv(base, s) && sid in s.sessions && s.sessions[sid].pc.Idle?
    ensures FirstLoginInv(base, DoDisconnect(s, sid))
  {
    hide FirstLoginInv, DoDisconnect, Depart;
    DisconnectShape(s, sid);
    DepartKeeps(s.world, s.sessions[sid].player);
    AllSettled(base, s);
    FirstLoginUpdate(base, s, DoDisconnect(s, sid), sid);
  }

  lemma DisconnectWorld(base: World, s: Server, sid: nat)
    requires WorldOk(base, s.world) && FirstLoginInv(base, s) && GroupsFine(s.world, s.groupLog)
    requires sid in s.sessions && s.sessions[sid].pc.Idle?
    ensures
      var s' := DoDisconnect(s, sid);
      && s'.threw == s.threw && WorldOk(base, s'.world) && FirstLoginInv(base, s') && GroupsFine(s'.world, s'.groupLog)
  {
    hide MapOk, FirstLoginInv, GroupsFine, Depart, DoDisconnect;
    DisconnectShape(s, sid);
    DepartKeeps(s.world, s.sessions[sid].player);
    DisconnectFirstLogin(base, s, sid);
    DepartGroups(s.world, s.sessions[sid].player, s.groupLog);
  }

  lemma DisconnectKeeps(base: World, s: Server, sid: nat)
    requires Inv(base, s) && sid in s.sessions && s.sessions[sid].pc.Idle?
    ensures Inv(base, DoDisconnect(s, sid))
  {
    hide WorldOk, StatesInv, LoginInv, NamesInv, FirstLoginInv, FlipInv, GroupsAgree, GroupLogInv, DoDisconnect;
    DisconnectWorld(base, s, sid);
    DisconnectStates(base, s, sid);
    DisconnectLogin(s, sid);
    PlayerIds(base, s);
    DisconnectNames(s, sid);
    DisconnectFlips(s, sid);
  }

  lemma PlayerIds(base: World, s: Server)
    requires StatesInv(base, s)
    ensures forall p {:trigger s.world.players[p]} :: p in s.world.players ==> s.world.players[p].id == p
  {
    hide PcsGood, Sound;
  }

  /** What a handler finds when it enters a critical section: every lookup it makes will succeed. */
  lemma LiveIsReady(base: World, s: Server, sid: nat)
    requires Inv(base, s) && sid in s.sessions && s.sessions[sid].player != ""
    requires s.sessions[sid].pc.Idle? || s.sessions[sid].pc.Saving?
    ensures Live(s.sessions[sid]) && s.sessions[sid].player in s.world.players
    ensures s.sessions[sid].room == s.world.players[s.sessions[sid].player].room
    ensures PlayersGood(base, s.world.npcs, s.world.players)
  {
    hide WorldOk, NamesInv, FirstLoginInv, FlipInv, GroupsAgree, GroupLogInv, PlayersGood, PcsGood;
    SessionIsOk(s.sessions, s.world.players, s.owner, sid);
  }

  lemma TameKeys(base: World, w: World, pid: string, o: Outcome)
    requires Tame(base, w, pid, o)
    ensures o.Outcome? && WorldOk(base, o.world) && o.world.players.Keys == w.players.Keys
  {
    hide WorldOk, PlayersGood, SavesGood, SavesOf, HpFalls, StatusesAdvance;
  }

  lemma CommitKeeps(base: World, s: Server, sid: nat, o: Outcome, event: GroupEvent)
    requires Inv(base, s) && sid in s.sessions && Live(s.sessions[sid])
    requires PendingSaves(s.sessions[sid].pc) == []
    requires Tame(base, s.world, s.sessions[sid].player, o)
    requires FirstLoginInv(base, Commit(s, sid, o, event))
    requires
      || (event == NoEvent && SameGroups(s.world, o.world))
      || GroupsFine(o.world, Recorded(s.groupLog, s.world, o.world, event))
    ensures Inv(base, Commit(s, sid, o, event))
  {
    hide WorldOk, StatesInv, LoginInv, NamesInv, FirstLoginInv, FlipInv, GroupsAgree, GroupLogInv, Tame, Recorded, Flipped, Moved;
    TameKeys(base, s.world, s.sessions[sid].player, o);
    CommitStates(base, s, sid, o, event);
    TameKeepsRooms(base, s.world, s.sessions[sid].player, o);
    CommitLogin(s, sid, o, event);
    CommitNames(base, s, sid, o, event);
    CommitFlips(base, s, sid, o, event);
    CommitGroups(s, sid, o, event);
  }

  /** A section of a handler for movement, items, combat and dialogue leaves the group maps alone. */
  lemma BehavesKeepsGroups(base: World, w: World, pid: string, room: string, o: Outcome)
    requires pid in w.players && Behaves(base, w, pid, room, o)
    ensures SameGroups(w, o.world)
  {
    hide MapOk, HpFalls, StateOk, Deaths, Moves;
  }

  lemma HandleKeeps(base: World, s: Server, sid: nat, command: Command)
    requires Loaded(base) && Inv(base, s) && CanHandle(s, sid, command)
    ensures Inv(base, DoHandle(s, sid, command))
  {
    hide WorldOk, StatesInv, LoginInv, NamesInv, FirstLoginInv, FlipInv, GroupsAgree, GroupLogInv, Tame, Run, Loaded,
         FairRoll, PlayersGood, GroupOnly, Behaves, Recorded, Commit;
    var session := s.sessions[sid];
    if session.player != "" {
      var o := Run(s.world, session.player, session.room, command);
      LiveIsReady(base, s, sid);
      RunIsTame(base, s.world, session, command);
      TameKeys(base, s.world, session.player, o);
      if IsGroupCommand(command) {
        CommandGroups(s.world, session.player, session.room, command, s.groupLog);
        GroupRunOnly(s.world, session.player, session.room, command);
        GroupOnlyFirstLogin(base, s, sid, o, HandledEvent(s, sid, command));
      } else {
        RunBehaves(base, s.world, session, command);
        BehavesKeepsGroups(base, s.world, session.player, session.room, o);
        BehavesFirstLogin(base, s, sid, o, HandledEvent(s, sid, command));
      }
      CommitKeeps(base, s, sid, o, HandledEvent(s, sid, command));
    }
  }

  lemma GroupRunOnly(w: World, pid: string, room: string, command: Command)
    requires IsGroupCommand(command)
    ensures GroupOnly(w, room, Run(w, pid, room, command))
  {
    hide GroupOnly, GroupCreate, GroupInvite, GroupAccept, GroupLeave;
    GroupCommandsOnly(w, pid, room, Args(command));
  }

  lemma FollowUpKeeps(base: World, s: Server, sid: nat, questOrder: seq<string>, playerOrder: seq<string>)
    requires Loaded(base) && Inv(base, s) && CanFollowUp(s, sid, questOrder, playerOrder)
    ensures Inv(base, DoFollowUp(s, sid, questOrder, playerOrder))
  {
    hide WorldOk, StatesInv, LoginInv, NamesInv, FirstLoginInv, FlipInv, GroupsAgree, GroupLogInv, Tame, Loaded,
         PlayersGood, Recorded, Commit, IsOrderOf, OnItemTaken, OnNpcDefeated, Progress, AllCleared;
    var session := s.sessions[sid];
    if session.pc.follow != Nothing {
      assert session.player != "" by { SessionIsOk(s.sessions, s.world.players, s.owner, sid); }
      LiveIsReady(base, s, sid);
      FollowUpIsTame(base, s, sid, questOrder, playerOrder);
      FollowUpFirstLogin(base, s, sid, questOrder, playerOrder);
      CommitKeeps(base, s, sid, FollowUpOutcome(s, sid, questOrder, playerOrder), NoEvent);
    }
  }

  /** Every step of every thread keeps the invariant. */
  lemma StepKeeps(base: World, s: Server, a: Action)
    requires Loaded(base) && Inv(base, s) && Enabled(s, a)
    ensures Inv(base, Step(s, a))
  {
    hide Inv, Loaded, DoCreate, DoConnect, DoReadFile, DoLogin, DoHandle, DoSave, DoFollowUp, DoDisconnect, FairRoll;
    match a {
      case Accept(sid) => AcceptKeeps(base, s, sid);
      case Create(sid, args) => CreateKeeps(base, s, sid, args);
      case Connect(sid, args) => ConnectKeeps(base, s, sid, args);
      case ReadFile(sid) => ReadFileKeeps(base, s, sid);
      case Login(sid) => LoginKeeps(base, s, sid);
      case Handle(sid, command) => HandleKeeps(base, s, sid, command);
      case Save(sid) => SaveKeeps(base, s, sid);
      case FollowUp(sid, qs, ps) => FollowUpKeeps(base, s, sid, qs, ps);
      case Disconnect(sid) => DisconnectKeeps(base, s, sid);
    }
  }

  // ---- every run -----------------------------------------------------------------------------

  lemma StartInv(base: World)
    requires Loaded(base)
    ensures Inv(base, Start(base))
  {
    hide ExitsLead, ItemsUnique, QuestsKnown, UnlocksKnown, AmountsSane;
  }

  lemma {:induction false} ExecKeeps(base: World, s: Server, run: seq<Action>)
    requires Loaded(base) && Inv(base, s) && CanRun(s, run)
    ensures Inv(base, Exec(s, run))
    decreases |run|
  {
    hide Inv, Loaded, Step, Enabled;
    if run != [] {
      StepKeeps(base, s, run[0]);
      ExecKeeps(base, Step(s, run[0]), run[1..]);
    }
  }

  lemma RunInv(base: World, run: seq<Action>)
    requires Loaded(base) && CanRun(Start(base), run)
    ensures Inv(base, Exec(Start(base), run))
  {
    hide Inv, Loaded, Start, CanRun, Exec;
    StartInv(base);
    ExecKeeps(base, Start(base), run);
  }
}
