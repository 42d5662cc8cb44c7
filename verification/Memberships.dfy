/** How memberships begin and end: what each group command does to the maps, and that in every run nothing
    else does it. */
module Memberships {
  import opened Lists
  import opened WorldModel
  import opened Sections
  import opened WorldRules
  import opened Server
  import opened StepShapes
  import opened Invariants
  import opened Commits
  import opened GroupProof
  import opened Runs

  // ---- leaving -------------------------------------------------------------------------------

  /** `pid` is in no group and in no list any more; every other player's group is the same, every list has kept
      its other members in their order, and a group is gone exactly if it had no other member. */
  ghost predicate HasLeft(w: World, w': World, pid: string) {
    && GroupOf(w'.playerGroup, pid) == ""
    && (forall p {:trigger GroupOf(w'.playerGroup, p)} :: p != pid ==> GroupOf(w'.playerGroup, p) == GroupOf(w.playerGroup, p))
    && (forall g {:trigger g in w'.groups} :: g in w'.groups <==> g in w.groups && exists m :: m in w.groups[g] && m != pid)
    && (forall g {:trigger w'.groups[g]} :: g in w'.groups ==> w'.groups[g] == Without(w.groups[g], pid))
  }

  lemma OnlyOthers(members: seq<string>, pid: string)
    ensures Without(members, pid) == [] <==> !exists m :: m in members && m != pid
    ensures forall m :: m in Without(members, pid) <==> m in members && m != pid
  {
    WithoutMembers(members, pid);
    if Without(members, pid) != [] {
      assert Without(members, pid)[0] in Without(members, pid);
    }
  }

  lemma LeaveMeans(w: World, pid: string)
    requires GroupsAgree(w.players, w.playerGroup, w.groups)
    ensures HasLeft(w, LeaveGroup(w, pid), pid)
    ensures LeaveGroup(w, pid) == w.(playerGroup := LeaveGroup(w, pid).playerGroup, groups := LeaveGroup(w, pid).groups)
  {
    hide NoDuplicates, Without;
    var w' := LeaveGroup(w, pid);
    forall g | g in w.groups
      ensures g in w'.groups <==> exists m :: m in w.groups[g] && m != pid
      ensures g in w'.groups ==> w'.groups[g] == Without(w.groups[g], pid)
    {
      OnlyOthers(w.groups[g], pid);
      if pid in w.groups[g] {
        assert GroupOf(w.playerGroup, pid) == g;
      } else {
        WithoutAbsent(w.groups[g], pid);
        assert w.groups[g][0] in w.groups[g];
      }
    }
  }

  /** GROUP LEAVE. */
  lemma QuitMeans(w: World, pid: string, room: string)
    requires GroupsAgree(w.players, w.playerGroup, w.groups)
    ensures
      var o := GroupLeave(w, pid, room);
      o.Outcome? && o.reply == Ok && HasLeft(w, o.world, pid)
      && o.world == w.(playerGroup := o.world.playerGroup, groups := o.world.groups)
  {
    hide NoDuplicates, Without, LeaveGroup;
    TouchKeeps(w.players, w.playerGroup, w.groups, pid);
    LeaveMeans(Touched(w, pid), pid);
    TouchedSame(w, pid);
  }

  lemma TouchedSame(w: World, pid: string)
    ensures forall p {:trigger GroupOf(Touched(w, pid).playerGroup, p)} ::
              GroupOf(Touched(w, pid).playerGroup, p) == GroupOf(w.playerGroup, p)
    ensures Touched(w, pid) == w.(playerGroup := Touched(w, pid).playerGroup)
  {
  }

  /** The disconnect handler. */
  lemma DepartMeans(w: World, pid: string)
    requires GroupsAgree(w.players, w.playerGroup, w.groups)
    ensures HasLeft(w, Depart(w, pid), pid)
    ensures
      var w' := Depart(w, pid);
      w' == w.(players := w.players - {pid}, playerGroup := w'.playerGroup, groups := w'.groups)
  {
    hide NoDuplicates, Without, GroupsAgree;
    LeaveMeans(w, pid);
    SameLeave(w, w.(players := w.players - {pid}), pid);
  }

  lemma SameLeave(w: World, v: World, pid: string)
    requires v == w.(players := v.players)
    ensures LeaveGroup(v, pid) == LeaveGroup(w, pid).(players := v.players)
  {
    hide Without;
  }

  // ---- joining -------------------------------------------------------------------------------

  /** GROUP ACCEPT: with a pending invite for that group the player leaves its group, if any, and goes to the end
      of the new one's list, and one invite is used up; without one nothing changes. */
  lemma AcceptMeans(w: World, pid: string, room: string, args: seq<string>)
    requires GroupsAgree(w.players, w.playerGroup, w.groups)
    ensures
      var o := GroupAccept(w, pid, room, args);
      o.Outcome? &&
      if |args| < 2 || (pid, args[1]) !in w.invites then
        && o.world == w
        && o.reply == Err(if |args| >= 2 && exists e :: e in w.invites && !Before(e.0, pid) then Internal else BadMessage)
      else
        var g, w' := args[1], o.world;
        && o.reply == Ok && GroupOf(w'.playerGroup, pid) == g
        && (forall p {:trigger GroupOf(w'.playerGroup, p)} :: p != pid ==> GroupOf(w'.playerGroup, p) == GroupOf(w.playerGroup, p))
        && g in w'.groups && w'.groups[g] == Without(MembersOf(w.groups, g), pid) + [pid]
        && (forall h {:trigger h in w'.groups} :: h != g ==>
              (h in w'.groups <==> h in w.groups && exists m :: m in w.groups[h] && m != pid)
              && (h in w'.groups ==> w'.groups[h] == Without(w.groups[h], pid)))
        && w' == w.(playerGroup := w'.playerGroup, groups := w'.groups, invites := w.invites - multiset{(pid, g)})
  {
    hide NoDuplicates, Without, HasKeyFrom, GroupsAgree, LeaveGroup, GroupAccept, EventOf;
    AcceptShape(w, pid, room, args);
    AcceptReplies(w, pid, room, args);
    if |args| >= 2 && (pid, args[1]) in w.invites {
      LeaveMeans(w, pid);
      OthersOf(w, pid, args[1]);
      var left, w', g := LeaveGroup(w, pid), GroupAccept(w, pid, room, args).world, args[1];
      assert forall p {:trigger GroupOf(w'.playerGroup, p)} :: p != pid ==> GroupOf(w'.playerGroup, p) == GroupOf(left.playerGroup, p);
      assert forall h {:trigger h in w'.groups} :: h != g ==> (h in w'.groups <==> h in left.groups);
    }
  }

  lemma AcceptReplies(w: World, pid: string, room: string, args: seq<string>)
    ensures
      var o := GroupAccept(w, pid, room, args);
      && o.Outcome? && (o.reply == Ok <==> |args| >= 2 && (pid, args[1]) in w.invites)
      && (o.reply == Ok || o.reply == Err(if |args| >= 2 && exists e :: e in w.invites && !Before(e.0, pid) then Internal else BadMessage))
      && o.world == w.(playerGroup := o.world.playerGroup, groups := o.world.groups, invites := o.world.invites)
  {
    hide Before, Without;
  }

  lemma OthersOf(w: World, pid: string, g: string)
    requires HasLeft(w, LeaveGroup(w, pid), pid)
    ensures MembersOf(LeaveGroup(w, pid).groups, g) == Without(MembersOf(w.groups, g), pid)
  {
    hide LeaveGroup;
    if g in w.groups {
      OnlyOthers(w.groups[g], pid);
    }
  }

  /** GROUP CREATE: a player without a group founds one that does not exist yet, named as asked or like the
      player, with itself as its only member; otherwise no membership changes. */
  lemma CreateMeans(w: World, pid: string, room: string, args: seq<string>)
    ensures
      var o, g := GroupCreate(w, pid, room, args), if |args| > 1 then args[1] else pid;
      && o.Outcome? && (o.reply == Ok <==> GroupOf(w.playerGroup, pid) == "" && g !in w.groups)
      && (forall p {:trigger GroupOf(o.world.playerGroup, p)} ::
            GroupOf(o.world.playerGroup, p) == if p == pid && o.reply == Ok then g else GroupOf(w.playerGroup, p))
      && o.world.groups == (if o.reply == Ok then w.groups[g := [pid]] else w.groups)
      && o.world == w.(playerGroup := o.world.playerGroup, groups := o.world.groups)
      && (o.reply != Ok ==> o.reply == Err(if GroupOf(w.playerGroup, pid) != "" then AlreadyInGroup else NameInUse))
  {
  }

  /** GROUP INVITE: a member invites another online player; no membership changes. */
  lemma InviteMeans(w: World, pid: string, room: string, args: seq<string>)
    ensures
      var o := GroupInvite(w, pid, room, args);
      && o.Outcome?
      && (o.reply == Ok <==> |args| > 1 && args[1] != pid && args[1] in w.players && GroupOf(w.playerGroup, pid) != "")
      && (forall p {:trigger GroupOf(o.world.playerGroup, p)} :: GroupOf(o.world.playerGroup, p) == GroupOf(w.playerGroup, p))
      && o.world == w.(playerGroup := o.world.playerGroup, invites := o.world.invites)
      && o.world.invites == (if o.reply == Ok then w.invites + multiset{(args[1], GroupOf(w.playerGroup, pid))} else w.invites)
      && (o.reply != Ok ==>
            o.reply == Err(if |args| < 2 || args[1] == pid then BadMessage else if args[1] !in w.players then PlayerNotFound else NotInGroup))
  {
  }

  // ---- every run -----------------------------------------------------------------------------

  /** The steps that end `p`'s membership in `g`: its own GROUP LEAVE, its own ACCEPT of an invite to another
      group, its disconnection. */
  predicate Ending(s: Server, a: Action, p: string, g: string) {
    match a
    case Handle(sid, QuitGroup) => sid in s.sessions && s.sessions[sid].player == p
    case Handle(sid, AcceptInvite(args)) =>
      sid in s.sessions && s.sessions[sid].player == p && |args| > 1 && args[1] != g && (p, args[1]) in s.world.invites
    case Disconnect(sid) => sid in s.sessions && s.sessions[sid].player == p
    case _ => false
  }

  /** The steps that begin it: its own GROUP CREATE of a new group of that name while it is in none, its own
      ACCEPT of an invite to it. */
  predicate Beginning(s: Server, a: Action, p: string, g: string) {
    match a
    case Handle(sid, CreateGroup(args)) =>
      && sid in s.sessions && s.sessions[sid].player == p && GroupOf(s.world.playerGroup, p) == ""
      && g == (if |args| > 1 then args[1] else p) && g !in s.world.groups
    case Handle(sid, AcceptInvite(args)) =>
      sid in s.sessions && s.sessions[sid].player == p && |args| > 1 && args[1] == g && (p, g) in s.world.invites
    case _ => false
  }

  ghost predicate Explained(s: Server, a: Action, w': World, p: string, g: string) {
    && (GroupOf(s.world.playerGroup, p) == g ==> (GroupOf(w'.playerGroup, p) != g <==> Ending(s, a, p, g)))
    && (GroupOf(s.world.playerGroup, p) != g ==> (GroupOf(w'.playerGroup, p) == g <==> Beginning(s, a, p, g)))
  }

  /** In every run, at every step, a membership ends and begins exactly by one of these. */
  lemma MembershipsAreExplained(base: World, run: seq<Action>, a: Action, p: string, g: string)
    requires Loaded(base) && CanRun(Start(base), run) && Enabled(Exec(Start(base), run), a) && g != "" && p != ""
    ensures
      var s := Exec(Start(base), run);
      Explained(s, a, Step(s, a).world, p, g)
  {
    hide Loaded, Start, CanRun, Exec, Inv, Enabled, Step, Explained;
    RunInv(base, run);
    StepIsExplained(base, Exec(Start(base), run), a, p, g);
  }

  lemma StepIsExplained(base: World, s: Server, a: Action, p: string, g: string)
    requires Loaded(base) && Inv(base, s) && Enabled(s, a) && g != "" && p != ""
    ensures Explained(s, a, Step(s, a).world, p, g)
  {
    hide Loaded, WorldOk, StatesInv, LoginInv, NamesInv, FirstLoginInv, FlipInv, GroupsAgree, GroupLogInv, CanHandle, CanFollowUp,
         DoCreate, DoConnect, DoReadFile, DoLogin, DoHandle, DoSave, DoFollowUp, DoDisconnect;
    match a {
      case Handle(sid, command) => HandleIsExplained(base, s, sid, command, p, g);
      case Disconnect(sid) => DisconnectIsExplained(s, sid, p, g);
      case _ => OtherGroups(base, s, a);
    }
  }

  lemma OtherGroups(base: World, s: Server, a: Action)
    requires Loaded(base) && Inv(base, s) && Enabled(s, a) && !a.Handle? && !a.Disconnect?
    ensures Step(s, a).world.playerGroup == s.world.playerGroup
  {
    hide Loaded, Inv, AreTokens, FairRoll, IsOrderOf, DoFollowUp, DoCreate, DoLogin, InitQuests, IsValidName, After, CanHandle;
    match a {
      case Create(sid, args) =>
        if DoCreate(s, sid, args) != s {
          CreateShape(s, sid, args);
        }
      case Login(sid) => LoginShape(s, sid);
      case FollowUp(sid, qs, ps) => FollowUpGroups(s, sid, qs, ps);
      case _ =>
    }
  }

  lemma FollowUpGroups(s: Server, sid: nat, questOrder: seq<string>, playerOrder: seq<string>)
    requires sid in s.sessions && s.sessions[sid].pc.Saving?
    ensures DoFollowUp(s, sid, questOrder, playerOrder).world.playerGroup == s.world.playerGroup
  {
    hide FetchPass, DefeatPass, Commit;
    if s.sessions[sid].pc.follow != Nothing {
      CommitShape(s, sid, FollowUpOutcome(s, sid, questOrder, playerOrder), NoEvent);
    }
  }

  lemma DisconnectIsExplained(s: Server, sid: nat, p: string, g: string)
    requires GroupsAgree(s.world.players, s.world.playerGroup, s.world.groups) && sid in s.sessions && g != "" && p != ""
    ensures Explained(s, Disconnect(sid), DoDisconnect(s, sid).world, p, g)
  {
    hide GroupsAgree, DoDisconnect, Depart, Without;
    DisconnectShape(s, sid);
    DepartMeans(s.world, s.sessions[sid].player);
  }

  lemma HandleIsExplained(base: World, s: Server, sid: nat, command: Command, p: string, g: string)
    requires Loaded(base) && Inv(base, s) && CanHandle(s, sid, command) && g != "" && p != ""
    ensures Explained(s, Handle(sid, command), DoHandle(s, sid, command).world, p, g)
  {
    hide Loaded, WorldOk, StatesInv, LoginInv, NamesInv, FirstLoginInv, FlipInv, GroupsAgree, GroupLogInv, Run, Commit, FairRoll,
         PlayersGood, Behaves, DoHandle, Explained;
    var session := s.sessions[sid];
    if session.player == "" {
      NobodyIsExplained(s, sid, command, p, g);
    } else {
      var o := Run(s.world, session.player, session.room, command);
      LiveIsReady(base, s, sid);
      HandleShape(s, sid, command);
      if IsGroupCommand(command) {
        GroupRunOnly(s.world, session.player, session.room, command);
        GroupCommandIsExplained(s, sid, command, p, g);
      } else {
        RunBehaves(base, s.world, session, command);
        BehavesKeepsGroups(base, s.world, session.player, session.room, o);
        BehavesOutcome(base, s.world, session.player, session.room, o);
        QuietIsExplained(s, Handle(sid, command), o.world, p, g);
      }
      CommitShape(s, sid, o, HandledEvent(s, sid, command));
    }
  }

  lemma NobodyIsExplained(s: Server, sid: nat, command: Command, p: string, g: string)
    requires sid in s.sessions && s.sessions[sid].player == "" && p != ""
    ensures Explained(s, Handle(sid, command), DoHandle(s, sid, command).world, p, g)
  {
    hide Commit, Run;
  }

  lemma BehavesOutcome(base: World, w: World, pid: string, room: string, o: Outcome)
    requires pid in w.players && Behaves(base, w, pid, room, o)
    ensures o.Outcome?
  {
    hide Change;
  }

  lemma QuietIsExplained(s: Server, a: Action, w': World, p: string, g: string)
    requires a.Handle? && !IsGroupCommand(a.command) && SameGroups(s.world, w')
    ensures Explained(s, a, w', p, g)
  {
  }

  lemma GroupCommandIsExplained(s: Server, sid: nat, command: Command, p: string, g: string)
    requires GroupsAgree(s.world.players, s.world.playerGroup, s.world.groups) && sid in s.sessions && IsGroupCommand(command)
    requires g != "" && p != ""
    ensures
      var o := Run(s.world, s.sessions[sid].player, s.sessions[sid].room, command);
      o.Outcome? && Explained(s, Handle(sid, command), o.world, p, g)
  {
    hide GroupsAgree, GroupCreate, GroupInvite, GroupAccept, GroupLeave, Explained;
    match command {
      case CreateGroup(args) => CreateIsExplained(s, sid, args, p, g);
      case Invite(args) => InviteIsExplained(s, sid, args, p, g);
      case AcceptInvite(args) => AcceptIsExplained(s, sid, args, p, g);
      case QuitGroup => QuitIsExplained(s, sid, p, g);
    }
  }

  lemma CreateIsExplained(s: Server, sid: nat, args: seq<string>, p: string, g: string)
    requires sid in s.sessions && g != "" && p != ""
    ensures
      var o := GroupCreate(s.world, s.sessions[sid].player, s.sessions[sid].room, args);
      o.Outcome? && Explained(s, Handle(sid, CreateGroup(args)), o.world, p, g)
  {
    hide GroupCreate, GroupOf;
    CreateMeans(s.world, s.sessions[sid].player, s.sessions[sid].room, args);
  }

  lemma InviteIsExplained(s: Server, sid: nat, args: seq<string>, p: string, g: string)
    requires sid in s.sessions && g != "" && p != ""
    ensures
      var o := GroupInvite(s.world, s.sessions[sid].player, s.sessions[sid].room, args);
      o.Outcome? && Explained(s, Handle(sid, Invite(args)), o.world, p, g)
  {
    hide GroupInvite, GroupOf;
    InviteMeans(s.world, s.sessions[sid].player, s.sessions[sid].room, args);
  }

  lemma AcceptIsExplained(s: Server, sid: nat, args: seq<string>, p: string, g: string)
    requires GroupsAgree(s.world.players, s.world.playerGroup, s.world.groups) && sid in s.sessions && g != "" && p != ""
    ensures
      var o := GroupAccept(s.world, s.sessions[sid].player, s.sessions[sid].room, args);
      o.Outcome? && Explained(s, Handle(sid, AcceptInvite(args)), o.world, p, g)
  {
    hide GroupsAgree, GroupAccept, GroupOf, Without;
    AcceptMeans(s.world, s.sessions[sid].player, s.sessions[sid].room, args);
  }

  lemma QuitIsExplained(s: Server, sid: nat, p: string, g: string)
    requires GroupsAgree(s.world.players, s.world.playerGroup, s.world.groups) && sid in s.sessions && g != "" && p != ""
    ensures
      var o := GroupLeave(s.world, s.sessions[sid].player, s.sessions[sid].room);
      o.Outcome? && Explained(s, Handle(sid, QuitGroup), o.world, p, g)
  {
    hide GroupsAgree, GroupLeave, GroupOf, Without;
    QuitMeans(s.world, s.sessions[sid].player, s.sessions[sid].room);
  }
}
