/** What every interleaved run promises, in terms of the server's state alone. */
module RunTheorems {
  import opened Lists
  import opened WorldModel
  import opened Sections
  import opened Effects
  import opened WorldRules
  import opened Server
  import opened Invariants
  import opened Commits
  import opened StatesProof
  import opened LoginProof
  import opened Runs

  // ---- names ---------------------------------------------------------------------------------

  /** At most one CREATE of a name ever succeeds: a created name is always in memory or on disk. */
  lemma NamesAreCreatedOnce(base: World, run: seq<Action>, name: string)
    requires Loaded(base) && CanRun(Start(base), run)
    ensures
      var s := Exec(Start(base), run);
      && s.created[name] <= 1
      && (s.created[name] == 1 <==> name in s.world.players || name in s.disk)
  {
    hide Loaded, Start, CanRun, Exec, WorldOk, StatesInv, LoginInv, FirstLoginInv, FlipInv, GroupsAgree, GroupLogInv;
    RunInv(base, run);
    AllAnchored(Exec(Start(base), run));
  }

  // ---- quests --------------------------------------------------------------------------------

  /** A defeat quest marked completed, online or on disk, has all its targets dead. */
  lemma CompletedMeansCleared(base: World, run: seq<Action>, p: string, q: string)
    requires Loaded(base) && CanRun(Start(base), run) && q in base.quests && base.quests[q].kind.Defeat?
    ensures
      var s := Exec(Start(base), run);
      && (p in s.world.players && q in s.world.players[p].quests && s.world.players[p].quests[q] == COMPLETED
          ==> AllDead(base.quests[q].targets, s.world.npcs))
      && (p in s.disk && q in s.disk[p].quests && s.disk[p].quests[q] == COMPLETED
          ==> AllDead(base.quests[q].targets, s.world.npcs))
  {
    hide Loaded, Start, CanRun, Exec, WorldOk, PcsGood, StateOk, LoginInv, NamesInv, FirstLoginInv, FlipInv, GroupsAgree, GroupLogInv,
         AllDead;
    RunInv(base, run);
  }

  /** In the login that created the character, with no kill of one of its targets on its way to the
      quest log, a defeat quest is completed exactly when all its targets are dead - unless a target of it
      stands in a room with an empty id. */
  lemma ClearedMeansCompleted(base: World, run: seq<Action>, p: string, q: string)
    requires Loaded(base) && CanRun(Start(base), run) && q in base.quests && base.quests[q].kind.Defeat?
    requires p in Exec(Start(base), run).firstLogin
    ensures
      var s := Exec(Start(base), run);
      && p in s.world.players && q in s.world.players[p].quests
      && (AllDead(base.quests[q].targets, s.world.npcs) && s.world.players[p].quests[q] != COMPLETED
          ==> KillPending(s.sessions, base.quests[q].targets) || StandsNowhere(base, base.quests[q]))
      && (!KillPending(s.sessions, base.quests[q].targets) && !StandsNowhere(base, base.quests[q]) ==>
            (s.world.players[p].quests[q] == COMPLETED <==> AllDead(base.quests[q].targets, s.world.npcs)))
  {
    hide Loaded, Start, CanRun, Exec, WorldOk, PcsGood, Sound, LoginInv, NamesInv, FlipInv, GroupsAgree, GroupLogInv, AllDead, KillPending, StandsNowhere;
    RunInv(base, run);
    CompletedMeansCleared(base, run, p, q);
    var s := Exec(Start(base), run);
    assert p in s.world.players;
    PlayerIsGood(base, s.world, p);
  }

  /** A quest completes at most once in a login. */
  lemma CompletesOncePerLogin(base: World, run: seq<Action>, sid: nat, q: string)
    requires Loaded(base) && CanRun(Start(base), run)
    ensures
      var s := Exec(Start(base), run);
      && s.flips[(sid, q)] <= 1
      && (s.flips[(sid, q)] == 1 && sid in s.sessions && Live(s.sessions[sid]) ==>
            IsCompleted(s.world.players, s.sessions[sid].player, q))
  {
    hide Loaded, Start, CanRun, Exec, WorldOk, StatesInv, LoginInv, NamesInv, FirstLoginInv, GroupsAgree, GroupLogInv, IsCompleted;
    RunInv(base, run);
  }

  // ---- life ----------------------------------------------------------------------------------

  /** Online players are alive and within their maximum; NPC hp is within its range; an NPC is in its
      one room exactly while it is alive. */
  lemma LifeIsKept(base: World, run: seq<Action>, p: string, n: string, r: string)
    requires Loaded(base) && CanRun(Start(base), run)
    ensures
      var s := Exec(Start(base), run);
      && (p in s.world.players ==> 1 <= s.world.players[p].hp <= s.world.players[p].maxHp == 100)
      && (n in s.world.npcs ==> n in base.npcs && 0 <= s.world.npcs[n].hp <= s.world.npcs[n].maxHp)
      && (r in s.world.rooms && n in s.world.npcs ==>
            r in base.rooms && (n in s.world.rooms[r].npcs <==> n in base.rooms[r].npcs && s.world.npcs[n].hp > 0))
  {
    hide Loaded, Start, CanRun, Exec, RoomItemsKnown, PcsGood, Sound, LoginInv, NamesInv, FirstLoginInv, FlipInv, GroupsAgree, GroupLogInv;
    RunInv(base, run);
    StartHp(base);
  }

  lemma StartHp(base: World)
    requires Loaded(base)
    ensures forall n :: n in base.npcs ==> base.npcs[n].hp == base.npcs[n].maxHp
  {
    hide Checked, Assumed;
  }

  /** In every run the player of a live session is one for whom `Effects` tells what its commands do: alive, in a
      room of the map among living NPCs, with known items. */
  lemma LivePlayersArePresent(base: World, run: seq<Action>, sid: nat)
    requires Loaded(base) && CanRun(Start(base), run)
    requires var s := Exec(Start(base), run); sid in s.sessions && Live(s.sessions[sid])
    ensures var s := Exec(Start(base), run); Present(s.world, s.sessions[sid].player)
  {
    hide Loaded, Start, CanRun, Exec, PcsGood, Sound, LoginInv, NamesInv, FirstLoginInv, FlipInv, GroupsAgree, GroupLogInv, PlayersGood;
    RunInv(base, run);
    var s := Exec(Start(base), run);
    SessionIsOk(s.sessions, s.world.players, s.owner, sid);
    PlayerIsGood(base, s.world, s.sessions[sid].player);
    RoomsHoldTheLiving(base, s.world);
  }

  lemma RoomsHoldTheLiving(base: World, w: World)
    requires Loaded(base) && WorldOk(base, w)
    ensures w.rooms.Keys == base.rooms.Keys && w.items == base.items
    ensures forall r, n {:trigger n in w.rooms[r].npcs} :: r in w.rooms && n in w.rooms[r].npcs ==> n in w.npcs && w.npcs[n].hp > 0
  {
    hide Assumed, Fresh, ExitsLead, ItemsKnown, ItemsUnique, QuestsKnown, UnlocksKnown;
  }

  /** No command is ever answered with the error for the dead. */
  lemma NobodyIsToldTheyAreDead(base: World, run: seq<Action>, sid: nat, command: Command)
    requires Loaded(base) && CanRun(Start(base), run)
    requires var s := Exec(Start(base), run); sid in s.sessions && Live(s.sessions[sid])
    ensures
      var s := Exec(Start(base), run);
      var o := Run(s.world, s.sessions[sid].player, s.sessions[sid].room, command);
      o.Outcome? ==> o.reply != Err(Dead)
  {
    hide Loaded, Start, CanRun, Exec, WorldOk, PcsGood, Sound, LoginInv, NamesInv, FirstLoginInv, FlipInv, GroupsAgree, GroupLogInv,
         InitQuests, HurtNpc, LeaveGroup, HasKeyFrom, NextProgress, LineCount, PlayersGood;
    RunInv(base, run);
    var s := Exec(Start(base), run);
    SessionIsOk(s.sessions, s.world.players, s.owner, sid);
    PlayerIsGood(base, s.world, s.sessions[sid].player);
  }

  /** No step raises the hp of an NPC. */
  lemma StepLowersHp(base: World, s: Server, a: Action)
    requires Loaded(base) && Inv(base, s) && Enabled(s, a)
    ensures HpFalls(s.world.npcs, Step(s, a).world.npcs)
  {
    hide Loaded, MapOk, StatesInv, LoginInv, NamesInv, FirstLoginInv, FlipInv, GroupsAgree, GroupLogInv, HpFalls, Run, FairRoll,
         Depart, InitQuests, IsValidName, IsOrderOf, Flipped, Recorded, Moved, PlayersAdvance, SavesOf, SavesGood, PlayersGood,
         OnItemTaken, OnNpcDefeated, Completes;
    NothingFalls(s.world.npcs);
    match a {
      case Handle(sid, command) =>
        if s.sessions[sid].player != "" {
          LiveIsReady(base, s, sid);
          RunIsTame(base, s.world, s.sessions[sid], command);
        }
      case FollowUp(sid, qs, ps) =>
        if s.sessions[sid].pc.follow != Nothing {
          assert s.sessions[sid].player != "" by { SessionIsOk(s.sessions, s.world.players, s.owner, sid); }
          LiveIsReady(base, s, sid);
          FollowUpIsTame(base, s, sid, qs, ps);
        }
      case Disconnect(sid) => DepartKeeps(s.world, s.sessions[sid].player);
      case _ =>
    }
  }

  /** From any point of a run to any later one, NPC hp only falls. */
  lemma {:induction false} HpNeverRises(base: World, s: Server, run: seq<Action>)
    requires Loaded(base) && Inv(base, s) && CanRun(s, run)
    ensures HpFalls(s.world.npcs, Exec(s, run).world.npcs)
    decreases |run|
  {
    hide Loaded, Inv, Step, Enabled;
    if run != [] {
      StepKeeps(base, s, run[0]);
      StepLowersHp(base, s, run[0]);
      HpNeverRises(base, Step(s, run[0]), run[1..]);
    }
  }

  // ---- groups --------------------------------------------------------------------------------

  /** The two group maps describe one membership: mutual, without repetitions, of online players only. */
  lemma GroupsAlwaysAgree(base: World, run: seq<Action>, p: string, g: string)
    requires Loaded(base) && CanRun(Start(base), run)
    ensures
      var w := Exec(Start(base), run).world;
      && (g in w.groups && p in w.groups[g] <==> g != "" && GroupOf(w.playerGroup, p) == g)
      && (g in w.groups ==> w.groups[g] != [] && NoDuplicates(w.groups[g]))
      && (GroupOf(w.playerGroup, p) != "" ==> p in w.players)
  {
    hide Loaded, Start, CanRun, Exec, WorldOk, StatesInv, LoginInv, NamesInv, FirstLoginInv, FlipInv, GroupLogInv, NoDuplicates;
    RunInv(base, run);
  }

  /** Invites are conserved: those issued are those accepted and those pending. Nobody enters a group but by
      founding it or by using up an invite, and every invite was issued by someone who was in the group then. */
  lemma InvitesAreConserved(base: World, run: seq<Action>, p: string, g: string)
    requires Loaded(base) && CanRun(Start(base), run)
    ensures
      var s := Exec(Start(base), run);
      && s.groupLog.issued[(p, g)] == s.groupLog.accepted[(p, g)] + s.world.invites[(p, g)]
      && s.groupLog.byMembers[(p, g)] == s.groupLog.issued[(p, g)]
      && s.groupLog.entered[(p, g)] <= s.groupLog.founded[(p, g)] + s.groupLog.byMembers[(p, g)]
  {
    hide Loaded, Start, CanRun, Exec, WorldOk, StatesInv, LoginInv, NamesInv, FirstLoginInv, FlipInv, GroupsAgree;
    RunInv(base, run);
    var log := Exec(Start(base), run).groupLog;
    assert log.entered[(p, g)] <= (log.founded + log.accepted)[(p, g)];
  }
}
