/** A fetch quest is completed for whoever carries its target: taking an item always reports it to the quest
    log, in the thread that took it. */
module FetchProof {
  import opened Lists
  import opened WorldModel
  import opened Sections
  import opened WorldRules
  import opened Completions
  import opened Server
  import opened StepShapes
  import opened Invariants
  import opened Commits
  import opened StatesProof
  import opened LoginProof
  import opened Runs

  // ---- what is claimed of one player ---------------------------------------------------------

  /** What a thread still has to report to the quest log. */
  function FollowOf(pc: Pc): Follow {
    if pc.Saving? then pc.follow else Nothing
  }

  function Pending(sessions: map<nat, Session>, owner: map<string, nat>, p: string): Follow {
    if p in owner && owner[p] in sessions then FollowOf(sessions[owner[p]].pc) else Nothing
  }

  /** The player carries the target of fetch quest `q`. */
  predicate Carries(base: World, p: PlayerState, q: string) {
    q in base.quests && q in p.quests && base.quests[q].kind.Fetch? && base.quests[q].target in p.inventory
  }

  /** Fetch quests whose target is carried are completed, but for those of an item just taken. */
  ghost predicate Fetched(base: World, p: PlayerState, follow: Follow) {
    forall q {:trigger p.quests[q]} :: Carries(base, p, q) ==> p.quests[q] == COMPLETED || follow == Taken(base.quests[q].target)
  }

  ghost predicate FetchInv(
    base: World, players: map<string, PlayerState>, sessions: map<nat, Session>, owner: map<string, nat>, who: set<string>)
  {
    forall p {:trigger players[p]} :: p in who && p in players ==> Fetched(base, players[p], Pending(sessions, owner, p))
  }

  // ---- sections ------------------------------------------------------------------------------

  /** A section that leaves statuses alone: what it adds to the bag it reports. */
  lemma BehavesFetched(base: World, w: World, pid: string, room: string, o: Outcome)
    requires pid in w.players && Behaves(base, w, pid, room, o) && Fetched(base, w.players[pid], Nothing)
    ensures o.Outcome? && pid in o.world.players && Fetched(base, o.world.players[pid], o.follow)
    ensures forall p :: p != pid && p in w.players ==> p in o.world.players && o.world.players[p] == w.players[p]
    ensures o.world.players.Keys == w.players.Keys
  {
    hide MapOk, HpFalls, Deaths, StateOk, Reached;
    var p := w.players[pid];
    if o.world != w {
      var p' :| Change(base, w, o.world, pid, p, p', o.follow, o.transfer);
      BagGrowsByTaking(w.rooms, o.world.rooms, p.room, p.inventory, p'.inventory, o.transfer);
      forall q | Carries(base, p', q) ensures p'.quests[q] == COMPLETED || o.follow == Taken(base.quests[q].target) {
        if base.quests[q].target in p.inventory {
          assert Carries(base, p, q);
        }
      }
    }
  }

  lemma BagGrowsByTaking(
    rooms: map<string, Room>, rooms': map<string, Room>, here: string, before: seq<string>, after: seq<string>, t: Transfer)
    requires here in rooms && rooms'.Keys == rooms.Keys && Moves(rooms, rooms', here, before, after, t)
    ensures forall i :: i in after ==> i in before || t == PickedUp(i)
  {
    hide Without;
    if t.PutDown? || t.Consumed? {
      WithoutMembers(before, t.item);
    }
  }

  /** A state whose open quests in `done` were completed. */
  lemma AdvancedFetched(base: World, p: PlayerState, p': PlayerState, done: set<string>, follow: Follow)
    requires Fetched(base, p, follow) && Advances(p, p', done)
    ensures Fetched(base, p', follow)
  {
    StatusesDiffer();
    forall q | Carries(base, p', q) ensures p'.quests[q] == COMPLETED || follow == Taken(base.quests[q].target) {
      assert Carries(base, p, q);
    }
  }

  /** The pass over the fetch quests settles what was taken. */
  lemma PassFetches(base: World, npcs: map<string, Npc>, name: string, p: PlayerState, item: string, order: seq<string>)
    requires NoRewards(base) && IsOrderOf(order, base.quests.Keys) && StateOk(base, name, p)
    requires Fetched(base, p, Taken(item))
    ensures Fetched(base, FetchPass(p, base.quests, item, order), Nothing)
  {
    hide FetchPass, IsOrderOf, Reached;
    FetchCompletes(p, base.quests, item, order);
    var p' := Finished(p, FetchedBy(base.quests, item));
    forall q | Carries(base, p', q) ensures p'.quests[q] == COMPLETED {
      assert Carries(base, p, q);
      assert p.quests[q] == IN_PROGRESS || p.quests[q] == COMPLETED;
    }
  }

  // ---- the invariant along steps -------------------------------------------------------------

  /** A step of session `sid` that changes nobody in `who`, nor what their threads have to report. */
  lemma FetchFrame(base: World, s: Server, s': Server, sid: nat, who: set<string>)
    requires FetchInv(base, s.world.players, s.sessions, s.owner, who)
    requires LoginInv(s.sessions, s.world.players, s.owner)
    requires sid in s'.sessions && s'.sessions == s.sessions[sid := s'.sessions[sid]]
    requires forall p {:trigger s'.world.players[p]} :: p in who && p in s'.world.players ==>
               p in s.world.players && s'.world.players[p] == s.world.players[p] && p in s'.owner && s'.owner[p] == s.owner[p]
    requires
      sid in s.sessions && s.sessions[sid].player in who && s.sessions[sid].player in s'.world.players && Live(s.sessions[sid]) ==>
        FollowOf(s'.sessions[sid].pc) == FollowOf(s.sessions[sid].pc)
    ensures FetchInv(base, s'.world.players, s'.sessions, s'.owner, who)
  {
    hide Fetched;
    forall p | p in who && p in s'.world.players ensures Fetched(base, s'.world.players[p], Pending(s'.sessions, s'.owner, p)) {
      OwnerIsLive(s.sessions, s.world.players, s.owner, p);
      assert Fetched(base, s.world.players[p], Pending(s.sessions, s.owner, p));
    }
  }

  lemma OwnerIsLive(sessions: map<nat, Session>, players: map<string, PlayerState>, owner: map<string, nat>, p: string)
    requires LoginInv(sessions, players, owner) && p in players
    ensures p in owner && owner[p] in sessions && Live(sessions[owner[p]]) && sessions[owner[p]].player == p
  {
  }

  /** A section of `sid` after which its player is settled but for the follow-up, and so is everyone else. */
  lemma FetchCommit(base: World, s: Server, sid: nat, o: Outcome, event: GroupEvent, who: set<string>)
    requires LoginInv(s.sessions, s.world.players, s.owner) && sid in s.sessions && Live(s.sessions[sid]) && o.Outcome?
    requires o.world.players.Keys == s.world.players.Keys
    requires s.sessions[sid].player in who ==> Fetched(base, o.world.players[s.sessions[sid].player], o.follow)
    requires forall p {:trigger o.world.players[p]} :: p in who && p in s.world.players && p != s.sessions[sid].player ==>
               Fetched(base, o.world.players[p], Pending(s.sessions, s.owner, p))
    ensures
      var s' := Commit(s, sid, o, event);
      FetchInv(base, s'.world.players, s'.sessions, s'.owner, who)
  {
    hide Fetched, Commit;
    CommitShape(s, sid, o, event);
    var s', pid := Commit(s, sid, o, event), s.sessions[sid].player;
    SessionIsOk(s.sessions, s.world.players, s.owner, sid);
    forall p | p in who && p in s'.world.players ensures Fetched(base, s'.world.players[p], Pending(s'.sessions, s'.owner, p)) {
      OwnerIsLive(s.sessions, s.world.players, s.owner, p);
      if p == pid {
        assert FollowOf(After(o.saves, o.follow)) == o.follow;
      } else {
        assert s.owner[p] != sid;
      }
    }
  }

  lemma HandleFetch(base: World, s: Server, sid: nat, command: Command, who: set<string>)
    requires Loaded(base) && Inv(base, s) && CanHandle(s, sid, command) && FetchInv(base, s.world.players, s.sessions, s.owner, who)
    ensures
      var s' := DoHandle(s, sid, command);
      FetchInv(base, s'.world.players, s'.sessions, s'.owner, who)
  {
    hide Loaded, WorldOk, StatesInv, LoginInv, NamesInv, FirstLoginInv, FlipInv, GroupsAgree, GroupLogInv, Run, FairRoll, PlayersGood,
         Commit, Behaves, Fetched;
    var session := s.sessions[sid];
    if session.player != "" {
      var pid := session.player;
      var o := Run(s.world, pid, session.room, command);
      LiveIsReady(base, s, sid);
      IdlePlayer(base, s, sid, who);
      if IsGroupCommand(command) {
        GroupRunOnly(s.world, pid, session.room, command);
      } else {
        RunBehaves(base, s.world, session, command);
        if pid in who {
          BehavesFetched(base, s.world, pid, session.room, o);
        } else {
          BehavesTouchesOne(base, s.world, pid, session.room, o);
        }
      }
      FetchCommit(base, s, sid, o, HandledEvent(s, sid, command), who);
    }
  }

  lemma BehavesTouchesOne(base: World, w: World, pid: string, room: string, o: Outcome)
    requires pid in w.players && Behaves(base, w, pid, room, o)
    ensures o.Outcome? && o.world.players.Keys == w.players.Keys
    ensures forall p :: p != pid && p in w.players ==> p in o.world.players && o.world.players[p] == w.players[p]
  {
    hide MapOk, HpFalls, Deaths, StateOk, Reached, Moves;
  }

  /** The others are settled as before; the player of an idle session has nothing left to report. */
  lemma IdlePlayer(base: World, s: Server, sid: nat, who: set<string>)
    requires Inv(base, s) && FetchInv(base, s.world.players, s.sessions, s.owner, who)
    requires sid in s.sessions && Live(s.sessions[sid]) && s.sessions[sid].player in s.world.players
    ensures s.sessions[sid].player in who ==>
              Fetched(base, s.world.players[s.sessions[sid].player], FollowOf(s.sessions[sid].pc))
    ensures forall p {:trigger s.world.players[p]} :: p in who && p in s.world.players ==>
              Fetched(base, s.world.players[p], Pending(s.sessions, s.owner, p))
  {
    hide WorldOk, StatesInv, NamesInv, FirstLoginInv, FlipInv, GroupsAgree, GroupLogInv, Fetched;
    SessionIsOk(s.sessions, s.world.players, s.owner, sid);
  }

  lemma FollowUpFetch(base: World, s: Server, sid: nat, questOrder: seq<string>, playerOrder: seq<string>, who: set<string>)
    requires Loaded(base) && Inv(base, s) && CanFollowUp(s, sid, questOrder, playerOrder)
    requires FetchInv(base, s.world.players, s.sessions, s.owner, who)
    ensures
      var s' := DoFollowUp(s, sid, questOrder, playerOrder);
      FetchInv(base, s'.world.players, s'.sessions, s'.owner, who)
  {
    hide Loaded, WorldOk, StatesInv, LoginInv, NamesInv, FirstLoginInv, FlipInv, GroupsAgree, GroupLogInv, PlayersGood,
         Commit, Fetched, Tame, Completes, IsOrderOf, OnItemTaken, OnNpcDefeated;
    var session := s.sessions[sid];
    if session.pc.follow != Nothing {
      SavingIsLoggedIn(base, s, sid);
      LiveIsReady(base, s, sid);
      IdlePlayer(base, s, sid, who);
      FollowUpIsTame(base, s, sid, questOrder, playerOrder);
      FollowUpFetches(base, s, sid, questOrder, playerOrder, who);
      FetchCommit(base, s, sid, FollowUpOutcome(s, sid, questOrder, playerOrder), NoEvent, who);
    }
  }

  lemma SavingIsLoggedIn(base: World, s: Server, sid: nat)
    requires Inv(base, s) && sid in s.sessions && s.sessions[sid].pc.Saving?
    ensures s.sessions[sid].player != ""
  {
    hide WorldOk, StatesInv, NamesInv, FirstLoginInv, FlipInv, GroupsAgree, GroupLogInv;
    SessionIsOk(s.sessions, s.world.players, s.owner, sid);
  }

  /** After the second section the player has nothing left to report, and nobody has lost a completion. */
  lemma FollowUpFetches(base: World, s: Server, sid: nat, questOrder: seq<string>, playerOrder: seq<string>, who: set<string>)
    requires Loaded(base) && Inv(base, s) && CanFollowUp(s, sid, questOrder, playerOrder) && s.sessions[sid].pc.follow != Nothing
    requires s.sessions[sid].player in s.world.players
    requires Completes(base, s.world, s.sessions[sid].room, FollowUpOutcome(s, sid, questOrder, playerOrder), FollowUpQuests(s, sid))
    requires s.sessions[sid].player in who ==> Fetched(base, s.world.players[s.sessions[sid].player], s.sessions[sid].pc.follow)
    requires forall p {:trigger s.world.players[p]} :: p in who && p in s.world.players ==>
               Fetched(base, s.world.players[p], Pending(s.sessions, s.owner, p))
    ensures
      var o, pid := FollowUpOutcome(s, sid, questOrder, playerOrder), s.sessions[sid].player;
      && o.Outcome? && o.follow == Nothing && o.world.players.Keys == s.world.players.Keys
      && (pid in who ==> Fetched(base, o.world.players[pid], Nothing))
      && forall p {:trigger o.world.players[p]} :: p in who && p in s.world.players && p != pid ==>
           Fetched(base, o.world.players[p], Pending(s.sessions, s.owner, p))
  {
    hide Loaded, Inv, Fetched, IsOrderOf, OnItemTaken, OnNpcDefeated, AllCleared, Advances, FollowUpQuests, FollowUpOutcome;
    var o, pid := FollowUpOutcome(s, sid, questOrder, playerOrder), s.sessions[sid].player;
    var done := FollowUpQuests(s, sid);
    forall p | p in who && p in s.world.players && p != pid ensures Fetched(base, o.world.players[p], Pending(s.sessions, s.owner, p)) {
      AdvancedFetched(base, s.world.players[p], o.world.players[p], done, Pending(s.sessions, s.owner, p));
    }
    if pid in who {
      if s.sessions[sid].pc.follow.Taken? {
        TakenIsSettled(base, s, sid, questOrder, playerOrder);
      } else {
        FetchedWithoutTaking(base, s.world.players[pid], s.sessions[sid].pc.follow);
        AdvancedFetched(base, s.world.players[pid], o.world.players[pid], done, Nothing);
      }
    }
  }

  lemma FetchedWithoutTaking(base: World, p: PlayerState, follow: Follow)
    requires Fetched(base, p, follow) && !follow.Taken?
    ensures Fetched(base, p, Nothing)
  {
  }

  lemma TakenIsSettled(base: World, s: Server, sid: nat, questOrder: seq<string>, playerOrder: seq<string>)
    requires Loaded(base) && Inv(base, s) && CanFollowUp(s, sid, questOrder, playerOrder) && s.sessions[sid].pc.follow.Taken?
    requires s.sessions[sid].player in s.world.players
    requires Fetched(base, s.world.players[s.sessions[sid].player], s.sessions[sid].pc.follow)
    ensures
      var o, pid := FollowUpOutcome(s, sid, questOrder, playerOrder), s.sessions[sid].player;
      o.Outcome? && pid in o.world.players && Fetched(base, o.world.players[pid], Nothing)
  {
    hide Checked, Fresh, NpcsSane, AmountsSane, MapOk, PcsGood, LoginInv, NamesInv, FirstLoginInv, FlipInv, GroupsAgree, GroupLogInv,
         IsOrderOf, FetchPass, Fetched, StateOk, Sound, PlayersGood;
    var pid := s.sessions[sid].player;
    PlayerIsGood(base, s.world, pid);
    PassFetches(base, s.world.npcs, pid, s.world.players[pid], s.sessions[sid].pc.follow.item, questOrder);
  }

  // ---- the other steps -----------------------------------------------------------------------

  lemma SaveFetch(base: World, s: Server, sid: nat, who: set<string>)
    requires LoginInv(s.sessions, s.world.players, s.owner) && FetchInv(base, s.world.players, s.sessions, s.owner, who)
    requires sid in s.sessions && HasSave(s.sessions[sid].pc)
    ensures
      var s' := DoSave(s, sid);
      FetchInv(base, s'.world.players, s'.sessions, s'.owner, who)
  {
    hide FetchInv, LoginInv;
    Owners(s.sessions, s.world.players, s.owner);
    FetchFrame(base, s, DoSave(s, sid), sid, who);
  }

  lemma Owners(sessions: map<nat, Session>, players: map<string, PlayerState>, owner: map<string, nat>)
    requires LoginInv(sessions, players, owner)
    ensures owner.Keys == players.Keys && "" !in players
  {
  }

  lemma AcceptFetch(base: World, s: Server, sid: nat, who: set<string>)
    requires LoginInv(s.sessions, s.world.players, s.owner) && FetchInv(base, s.world.players, s.sessions, s.owner, who)
    requires sid !in s.sessions
    ensures
      var s' := SetSession(s, sid, Session("", "", Idle));
      FetchInv(base, s'.world.players, s'.sessions, s'.owner, who)
  {
    hide FetchInv, LoginInv;
    Owners(s.sessions, s.world.players, s.owner);
    FetchFrame(base, s, SetSession(s, sid, Session("", "", Idle)), sid, who);
  }

  lemma CreateFetch(base: World, s: Server, sid: nat, args: seq<string>, who: set<string>)
    requires LoginInv(s.sessions, s.world.players, s.owner) && FetchInv(base, s.world.players, s.sessions, s.owner, who)
    requires sid in s.sessions && s.sessions[sid].pc.Idle? && who <= s.world.players.Keys
    ensures
      var s' := DoCreate(s, sid, args);
      FetchInv(base, s'.world.players, s'.sessions, s'.owner, who + (s'.world.players.Keys - s.world.players.Keys))
  {
    hide FetchInv, LoginInv, DoCreate, IsValidName, InitQuests, JoinFrom;
    var s' := DoCreate(s, sid, args);
    if s' == s {
      assert who + (s'.world.players.Keys - s.world.players.Keys) == who;
    } else {
      CreateShape(s, sid, args);
      Owners(s.sessions, s.world.players, s.owner);
      FetchFrame(base, s, s', sid, who);
      NewcomerFetches(base, s'.world.players, s'.sessions, s'.owner, who, args[0]);
      NewBag(s.world, args[0], if |args| > 1 then args[1] else "", JoinFrom(args, 2));
      EmptyBag(base, s'.world.players[args[0]], Pending(s'.sessions, s'.owner, args[0]));
      assert s'.world.players.Keys - s.world.players.Keys == {args[0]};
    }
  }

  lemma NewBag(w: World, name: string, race: string, attributes: string)
    ensures InitQuests(w, NewCharacter(name, race, attributes)).inventory == []
  {
    hide AlreadyDone;
  }

  lemma EmptyBag(base: World, p: PlayerState, follow: Follow)
    requires p.inventory == []
    ensures Fetched(base, p, follow)
  {
  }

  lemma NewcomerFetches(
    base: World, players: map<string, PlayerState>, sessions: map<nat, Session>, owner: map<string, nat>, who: set<string>, name: string)
    requires FetchInv(base, players, sessions, owner, who)
    ensures name in players && Fetched(base, players[name], Pending(sessions, owner, name)) ==>
              FetchInv(base, players, sessions, owner, who + {name})
  {
    hide Fetched;
  }

  lemma ConnectFetch(base: World, s: Server, sid: nat, args: seq<string>, who: set<string>)
    requires LoginInv(s.sessions, s.world.players, s.owner) && FetchInv(base, s.world.players, s.sessions, s.owner, who)
    requires sid in s.sessions && s.sessions[sid].pc.Idle?
    ensures
      var s' := DoConnect(s, sid, args);
      FetchInv(base, s'.world.players, s'.sessions, s'.owner, who)
  {
    hide FetchInv, LoginInv, IsValidName;
    Owners(s.sessions, s.world.players, s.owner);
    if DoConnect(s, sid, args) != s {
      FetchFrame(base, s, DoConnect(s, sid, args), sid, who);
    }
  }

  lemma ReadFileFetch(base: World, s: Server, sid: nat, who: set<string>)
    requires LoginInv(s.sessions, s.world.players, s.owner) && FetchInv(base, s.world.players, s.sessions, s.owner, who)
    requires sid in s.sessions && s.sessions[sid].pc.Seeking?
    ensures
      var s' := DoReadFile(s, sid);
      FetchInv(base, s'.world.players, s'.sessions, s'.owner, who)
  {
    hide FetchInv, LoginInv;
    Owners(s.sessions, s.world.players, s.owner);
    FetchFrame(base, s, DoReadFile(s, sid), sid, who);
  }

  lemma LoginFetch(base: World, s: Server, sid: nat, who: set<string>)
    requires LoginInv(s.sessions, s.world.players, s.owner) && FetchInv(base, s.world.players, s.sessions, s.owner, who)
    requires sid in s.sessions && s.sessions[sid].pc.Found? && who <= s.world.players.Keys
    ensures
      var s' := DoLogin(s, sid);
      FetchInv(base, s'.world.players, s'.sessions, s'.owner, who)
  {
    hide FetchInv, LoginInv, DoLogin;
    SessionIsOk(s.sessions, s.world.players, s.owner, sid);
    LoginShape(s, sid);
    Owners(s.sessions, s.world.players, s.owner);
    LoginOwners(s, sid);
    FetchFrame(base, s, DoLogin(s, sid), sid, who);
  }

  lemma LoginOwners(s: Server, sid: nat)
    requires sid in s.sessions && s.sessions[sid].pc.Found? && s.owner.Keys == s.world.players.Keys
    ensures forall p {:trigger p in DoLogin(s, sid).owner} :: p in s.owner ==> p in DoLogin(s, sid).owner && DoLogin(s, sid).owner[p] == s.owner[p]
  {
    hide InitQuests;
    var name, s' := s.sessions[sid].pc.name, DoLogin(s, sid);
    if name !in s.world.players {
      assert s'.owner == s.owner[name := sid] && name !in s.owner;
    }
  }

  lemma DisconnectFetch(base: World, s: Server, sid: nat, who: set<string>)
    requires LoginInv(s.sessions, s.world.players, s.owner) && FetchInv(base, s.world.players, s.sessions, s.owner, who)
    requires sid in s.sessions && s.sessions[sid].pc.Idle?
    ensures
      var s' := DoDisconnect(s, sid);
      FetchInv(base, s'.world.players, s'.sessions, s'.owner, who)
  {
    hide FetchInv, LoginInv, DoDisconnect, Depart;
    DisconnectShape(s, sid);
    DepartKeeps(s.world, s.sessions[sid].player);
    Owners(s.sessions, s.world.players, s.owner);
    FetchFrame(base, s, DoDisconnect(s, sid), sid, who);
  }

  /** Every step keeps whoever was settled settled; a new character is settled. */
  lemma StepFetch(base: World, s: Server, a: Action, who: set<string>)
    requires Loaded(base) && Inv(base, s) && Enabled(s, a)
    requires FetchInv(base, s.world.players, s.sessions, s.owner, who) && who <= s.world.players.Keys
    ensures
      var s' := Step(s, a);
      && FetchInv(base, s'.world.players, s'.sessions, s'.owner, who)
      && (a.Create? ==> FetchInv(base, s'.world.players, s'.sessions, s'.owner, who + (s'.world.players.Keys - s.world.players.Keys)))
  {
    hide Loaded, WorldOk, StatesInv, LoginInv, NamesInv, FirstLoginInv, FlipInv, GroupsAgree, GroupLogInv, FetchInv, CanHandle, CanFollowUp,
         DoCreate, DoConnect, DoReadFile, DoLogin, DoHandle, DoSave, DoFollowUp, DoDisconnect;
    match a {
      case Accept(sid) => AcceptFetch(base, s, sid, who);
      case Create(sid, args) =>
        CreateFetch(base, s, sid, args, who);
        FewerFetch(base, Step(s, a), who + (Step(s, a).world.players.Keys - s.world.players.Keys), who);
      case Connect(sid, args) => ConnectFetch(base, s, sid, args, who);
      case ReadFile(sid) => ReadFileFetch(base, s, sid, who);
      case Login(sid) => LoginFetch(base, s, sid, who);
      case Handle(sid, command) => HandleFetch(base, s, sid, command, who);
      case Save(sid) => SaveFetch(base, s, sid, who);
      case FollowUp(sid, qs, ps) => FollowUpFetch(base, s, sid, qs, ps, who);
      case Disconnect(sid) => DisconnectFetch(base, s, sid, who);
    }
  }

  lemma FewerFetch(base: World, s: Server, who: set<string>, fewer: set<string>)
    requires FetchInv(base, s.world.players, s.sessions, s.owner, who) && fewer <= who
    ensures FetchInv(base, s.world.players, s.sessions, s.owner, fewer)
  {
    hide Fetched;
  }
}
