/** The two group maps agree in every run, and every membership is a founding or an accepted invite. */
module GroupProof {
  import opened Lists
  import opened WorldModel
  import opened Sections
  import opened Server
  import opened Invariants
  import opened Commits

  lemma AgreeSameKeys(
    players: map<string, PlayerState>, players': map<string, PlayerState>,
    playerGroup: map<string, string>, groups: map<string, seq<string>>)
    requires GroupsAgree(players, playerGroup, groups) && players.Keys <= players'.Keys
    ensures GroupsAgree(players', playerGroup, groups)
  {
    hide NoDuplicates;
  }

  lemma TouchKeeps(players: map<string, PlayerState>, playerGroup: map<string, string>, groups: map<string, seq<string>>, pid: string)
    requires GroupsAgree(players, playerGroup, groups)
    ensures GroupsAgree(players, playerGroup[pid := GroupOf(playerGroup, pid)], groups)
    ensures Joined(playerGroup, playerGroup[pid := GroupOf(playerGroup, pid)]) == {}
  {
    hide NoDuplicates;
    var touched := playerGroup[pid := GroupOf(playerGroup, pid)];
    assert forall p {:trigger GroupOf(touched, p)} :: GroupOf(touched, p) == GroupOf(playerGroup, p);
  }

  /** After leaving, the player is in no group; the group disappears with its last member. */
  lemma LeaveKeeps(w: World, pid: string)
    requires GroupsAgree(w.players, w.playerGroup, w.groups)
    ensures GroupsAgree(w.players, LeaveGroup(w, pid).playerGroup, LeaveGroup(w, pid).groups)
    ensures GroupOf(LeaveGroup(w, pid).playerGroup, pid) == ""
    ensures forall g :: g in LeaveGroup(w, pid).groups ==> pid !in LeaveGroup(w, pid).groups[g]
    ensures Joined(w.playerGroup, LeaveGroup(w, pid).playerGroup) == {}
  {
    var g := GroupOf(w.playerGroup, pid);
    if g != "" {
      WithoutMembers(w.groups[g], pid);
      WithoutKeepsDistinct(w.groups[g], pid);
      hide NoDuplicates, Without;
      var w' := LeaveGroup(w, pid);
      assert forall p {:trigger GroupOf(w'.playerGroup, p)} ::
          GroupOf(w'.playerGroup, p) == if p == pid then "" else GroupOf(w.playerGroup, p);
      forall p | GroupOf(w'.playerGroup, p) != ""
        ensures GroupOf(w'.playerGroup, p) in w'.groups && p in w'.groups[GroupOf(w'.playerGroup, p)]
      {
        assert p in w.groups[GroupOf(w.playerGroup, p)];
      }
    }
  }

  /** A player in no group joins `g`, which may or may not exist. */
  lemma JoinKeeps(players: map<string, PlayerState>, playerGroup: map<string, string>, groups: map<string, seq<string>>, pid: string, g: string)
    requires GroupsAgree(players, playerGroup, groups) && GroupOf(playerGroup, pid) == "" && g != "" && pid in players
    ensures GroupsAgree(players, playerGroup[pid := g], groups[g := MembersOf(groups, g) + [pid]])
    ensures Joined(playerGroup, playerGroup[pid := g]) == {(pid, g)}
  {
    var pg, gs := playerGroup[pid := g], groups[g := MembersOf(groups, g) + [pid]];
    assert pid !in MembersOf(groups, g);
    AppendKeepsDistinct(MembersOf(groups, g), pid);
    assert forall p {:trigger GroupOf(pg, p)} :: GroupOf(pg, p) == if p == pid then g else GroupOf(playerGroup, p);
    assert pid in gs[g];
    forall p | GroupOf(pg, p) != ""
      ensures p in players && GroupOf(pg, p) in gs && p in gs[GroupOf(pg, p)]
    {
    }
    assert (pid, g) in Joined(playerGroup, pg);
  }

  // ---- the log -------------------------------------------------------------------------------

  /** A section in which nobody enters a group and nothing happens to invites. */
  lemma LogWithoutJoin(w: World, w': World, log: GroupLog)
    requires GroupLogInv(w, log) && Joined(w.playerGroup, w'.playerGroup) == {} && w'.invites == w.invites
    ensures GroupLogInv(w', Recorded(log, w, w', NoEvent))
  {
  }

  lemma SameMembership(playerGroup: map<string, string>)
    ensures Joined(playerGroup, playerGroup) == {}
  {
  }

  lemma LogFounding(w: World, w': World, log: GroupLog, p: string, g: string)
    requires GroupLogInv(w, log) && w'.invites == w.invites && Joined(w.playerGroup, w'.playerGroup) <= {(p, g)}
    ensures GroupLogInv(w', Recorded(log, w, w', Founding(p, g)))
  {
    assert multiset(Joined(w.playerGroup, w'.playerGroup)) <= multiset{(p, g)};
  }

  lemma LogIssuing(w: World, w': World, log: GroupLog, inviter: string, p: string, g: string)
    requires GroupLogInv(w, log) && w'.invites == w.invites + multiset{(p, g)} && g != ""
    requires Joined(w.playerGroup, w'.playerGroup) == {} && inviter in MembersOf(w.groups, g)
    ensures GroupLogInv(w', Recorded(log, w, w', Issuing(inviter, p, g)))
  {
  }

  lemma LogAccepting(w: World, w': World, log: GroupLog, p: string, g: string)
    requires GroupLogInv(w, log) && (p, g) in w.invites && w'.invites == w.invites - multiset{(p, g)}
    requires Joined(w.playerGroup, w'.playerGroup) <= {(p, g)}
    ensures GroupLogInv(w', Recorded(log, w, w', Accepting(p, g)))
  {
    assert multiset(Joined(w.playerGroup, w'.playerGroup)) <= multiset{(p, g)};
    assert w.invites == w'.invites + multiset{(p, g)};
  }

  // ---- the group commands --------------------------------------------------------------------

  ghost predicate GroupsFine(w: World, log: GroupLog) {
    GroupsAgree(w.players, w.playerGroup, w.groups) && GroupLogInv(w, log)
  }

  lemma CreateGroups(w: World, pid: string, room: string, args: seq<string>, log: GroupLog)
    requires GroupsFine(w, log) && pid in w.players && pid != "" && AreTokens(args)
    ensures
      var o := GroupCreate(w, pid, room, args);
      GroupsFine(o.world, Recorded(log, w, o.world, EventOf(w, pid, CreateGroup(args), o)))
  {
    hide GroupsAgree, GroupLogInv, Joined, Recorded;
    var t := Touched(w, pid);
    var o := GroupCreate(w, pid, room, args);
    TouchKeeps(w.players, w.playerGroup, w.groups, pid);
    if o.reply == Ok {
      var g := if |args| > 1 then args[1] else pid;
      JoinKeeps(w.players, t.playerGroup, t.groups, pid, g);
      assert MembersOf(t.groups, g) + [pid] == [pid];
      JoinedSame(w.playerGroup, t.playerGroup, o.world.playerGroup);
      LogFounding(w, o.world, log, pid, g);
    } else {
      LogWithoutJoin(w, o.world, log);
    }
  }

  lemma InviteGroups(w: World, pid: string, room: string, args: seq<string>, log: GroupLog)
    requires GroupsFine(w, log)
    ensures
      var o := GroupInvite(w, pid, room, args);
      GroupsFine(o.world, Recorded(log, w, o.world, EventOf(w, pid, Invite(args), o)))
  {
    hide GroupsAgree, GroupLogInv, Joined, Recorded;
    var o := GroupInvite(w, pid, room, args);
    TouchKeeps(w.players, w.playerGroup, w.groups, pid);
    SameMembership(w.playerGroup);
    if o.reply == Ok {
      var g := GroupOf(w.playerGroup, pid);
      assert pid in MembersOf(w.groups, g) by { MemberIsListed(w, pid); }
      LogIssuing(w, o.world, log, pid, args[1], g);
    } else {
      LogWithoutJoin(w, o.world, log);
    }
  }

  lemma MemberIsListed(w: World, pid: string)
    requires GroupsAgree(w.players, w.playerGroup, w.groups) && GroupOf(w.playerGroup, pid) != ""
    ensures pid in MembersOf(w.groups, GroupOf(w.playerGroup, pid))
  {
    hide NoDuplicates;
  }

  /** What an ACCEPT does to the group maps and invites, and what it means. */
  lemma AcceptShape(w: World, pid: string, room: string, args: seq<string>)
    ensures
      var o := GroupAccept(w, pid, room, args);
      var event := EventOf(w, pid, AcceptInvite(args), o);
      o.Outcome? &&
      if |args| < 2 || (pid, args[1]) !in w.invites then o.world == w && event == NoEvent
      else
        var left, g := LeaveGroup(w, pid), args[1];
        && event == Accepting(pid, g) && o.world.players == left.players && o.world.playerGroup == left.playerGroup[pid := g]
        && o.world.groups == left.groups[g := MembersOf(left.groups, g) + [pid]] && o.world.invites == left.invites - multiset{(pid, g)}
  {
    hide LeaveGroup, HasKeyFrom, MembersOf;
  }

  lemma AcceptGroups(w: World, pid: string, room: string, args: seq<string>, log: GroupLog)
    requires GroupsFine(w, log) && pid in w.players
    ensures
      var o := GroupAccept(w, pid, room, args);
      GroupsFine(o.world, Recorded(log, w, o.world, EventOf(w, pid, AcceptInvite(args), o)))
  {
    hide GroupsAgree, GroupLogInv, Joined, Recorded, LeaveGroup, GroupAccept, EventOf;
    AcceptShape(w, pid, room, args);
    var w' := GroupAccept(w, pid, room, args).world;
    if |args| < 2 || (pid, args[1]) !in w.invites {
      SameMembership(w.playerGroup);
      LogWithoutJoin(w, w', log);
    } else {
      var g := args[1];
      var left := LeaveGroup(w, pid);
      LeaveKeeps(w, pid);
      LeaveTouches(w, pid);
      InviteIsNamed(w, log, (pid, g));
      JoinKeeps(w.players, left.playerGroup, left.groups, pid, g);
      JoinedThrough(w.playerGroup, left.playerGroup, w'.playerGroup, (pid, g));
      LogAccepting(w, w', log, pid, g);
    }
  }

  lemma InviteIsNamed(w: World, log: GroupLog, e: (string, string))
    requires GroupLogInv(w, log) && e in w.invites
    ensures e.1 != ""
  {
  }

  lemma LeaveTouches(w: World, pid: string)
    ensures LeaveGroup(w, pid) == w.(playerGroup := LeaveGroup(w, pid).playerGroup, groups := LeaveGroup(w, pid).groups)
    ensures forall p {:trigger GroupOf(LeaveGroup(w, pid).playerGroup, p)} ::
              GroupOf(LeaveGroup(w, pid).playerGroup, p) == "" || GroupOf(LeaveGroup(w, pid).playerGroup, p) == GroupOf(w.playerGroup, p)
  {
  }

  /** Leaving first and then joining begins at most the membership that joining begins. */
  lemma JoinedThrough(a: map<string, string>, b: map<string, string>, c: map<string, string>, e: (string, string))
    requires Joined(b, c) == {e}
    requires forall p {:trigger GroupOf(b, p)} :: GroupOf(b, p) == "" || GroupOf(b, p) == GroupOf(a, p)
    ensures Joined(a, c) <= {e}
  {
    forall x | x in Joined(a, c) ensures x == e {
      assert x.0 in c && c[x.0] == x.1 && x.1 != "" && GroupOf(a, x.0) != x.1;
      assert GroupOf(b, x.0) != x.1;
      assert x in Joined(b, c);
    }
  }

  lemma LeaveGroups(w: World, pid: string, room: string, log: GroupLog)
    requires GroupsFine(w, log)
    ensures var w' := GroupLeave(w, pid, room).world; GroupsFine(w', Recorded(log, w, w', NoEvent))
  {
    hide GroupsAgree, GroupLogInv, Joined, Recorded, LeaveGroup;
    var t := Touched(w, pid);
    TouchKeeps(w.players, w.playerGroup, w.groups, pid);
    LeaveKeeps(t, pid);
    LeaveTouches(t, pid);
    var w' := GroupLeave(w, pid, room).world;
    JoinedNever(w.playerGroup, t.playerGroup, w'.playerGroup);
    LogWithoutJoin(w, w', log);
  }

  /** Touching before joining makes no difference to the membership that begins. */
  lemma JoinedSame(a: map<string, string>, b: map<string, string>, c: map<string, string>)
    requires forall p {:trigger GroupOf(b, p)} :: GroupOf(b, p) == GroupOf(a, p)
    ensures Joined(a, c) == Joined(b, c)
  {
    assert forall x :: x in Joined(a, c) <==> x in Joined(b, c);
  }

  lemma JoinedNever(a: map<string, string>, b: map<string, string>, c: map<string, string>)
    requires Joined(b, c) == {}
    requires forall p :: GroupOf(b, p) == GroupOf(a, p)
    ensures Joined(a, c) == {}
  {
    assert forall x :: x in Joined(a, c) ==> x in Joined(b, c);
  }

  /** An invite is issued only by a member of the group it is for. */
  lemma InviterIsMember(w: World, pid: string, room: string, args: seq<string>, e: (string, string))
    requires GroupsAgree(w.players, w.playerGroup, w.groups)
    requires GroupInvite(w, pid, room, args).world.invites[e] > w.invites[e]
    ensures e.1 in w.groups && pid in w.groups[e.1] && e.0 in w.players && e.0 != pid
  {
    assert GroupOf(w.playerGroup, pid) == e.1;
  }

  // ---- the steps -----------------------------------------------------------------------------

  lemma CommandGroups(w: World, pid: string, room: string, command: Command, log: GroupLog)
    requires GroupsFine(w, log) && pid in w.players && pid != "" && AreTokens(Args(command))
    requires IsGroupCommand(command)
    ensures
      var o := Run(w, pid, room, command);
      GroupsFine(o.world, Recorded(log, w, o.world, EventOf(w, pid, command, o)))
  {
    hide GroupsFine, Recorded, GroupCreate, GroupInvite, GroupAccept, GroupLeave;
    match command {
      case CreateGroup(args) => CreateGroups(w, pid, room, args, log);
      case Invite(args) => InviteGroups(w, pid, room, args, log);
      case AcceptInvite(args) => AcceptGroups(w, pid, room, args, log);
      case QuitGroup => LeaveGroups(w, pid, room, log);
    }
  }

  ghost predicate SameGroups(w: World, w': World) {
    w'.playerGroup == w.playerGroup && w'.groups == w.groups && w'.invites == w.invites
  }

  /** A section that leaves the group maps alone, or is a group command, keeps them fine. */
  lemma CommitGroups(s: Server, sid: nat, o: Outcome, event: GroupEvent)
    requires GroupsFine(s.world, s.groupLog) && sid in s.sessions && o.Outcome?
    requires o.world.players.Keys == s.world.players.Keys
    requires
      || (event == NoEvent && SameGroups(s.world, o.world))
      || GroupsFine(o.world, Recorded(s.groupLog, s.world, o.world, event))
    ensures GroupsFine(Commit(s, sid, o, event).world, Commit(s, sid, o, event).groupLog)
  {
    hide GroupsAgree, GroupLogInv, Joined, Recorded, Flipped, Moved;
    if event == NoEvent && SameGroups(s.world, o.world) {
      AgreeSameKeys(s.world.players, o.world.players, s.world.playerGroup, s.world.groups);
      SameMembership(s.world.playerGroup);
      LogWithoutJoin(s.world, o.world, s.groupLog);
    }
  }

  lemma DepartGroups(w: World, name: string, log: GroupLog)
    requires GroupsFine(w, log)
    ensures GroupsFine(Depart(w, name), log)
  {
    hide LeaveGroup, NoDuplicates;
    LeaveKeeps(w, name);
    LeaveTouches(w.(players := w.players - {name}), name);
    LeaveIgnoresPlayers(w, w.players - {name}, name);
    var w' := Depart(w, name);
    forall p | GroupOf(w'.playerGroup, p) != "" ensures p in w'.players {
      assert p in w.players;
    }
  }

  lemma LeaveIgnoresPlayers(w: World, players: map<string, PlayerState>, pid: string)
    ensures LeaveGroup(w.(players := players), pid).playerGroup == LeaveGroup(w, pid).playerGroup
    ensures LeaveGroup(w.(players := players), pid).groups == LeaveGroup(w, pid).groups
  {
  }
}
