/** The record that runs keep is what happened: completions, creations, invites and memberships are counted
    exactly when the world changes that way. */
module Records {
  import opened Lists
  import opened WorldModel
  import opened Sections
  import opened Server
  import opened StepShapes
  import opened Commits
  import opened GroupProof

  /** Quest `q` of the player that session `login` logged in goes from in progress to completed. */
  ghost predicate Completing(s: Server, w: World, login: nat, q: string) {
    exists p :: p in s.world.players && p in w.players && p in s.owner && s.owner[p] == login && q in w.players[p].quests
                && IsOpen(s.world.players[p], q) && w.players[p].quests[q] == COMPLETED
  }

  /** A critical section counts one completion for exactly the quests that complete in it. */
  lemma CompletionsAreCounted(s: Server, sid: nat, o: Outcome, event: GroupEvent, login: nat, q: string)
    requires sid in s.sessions && o.Outcome?
    ensures
      Commit(s, sid, o, event).flips[(login, q)] == s.flips[(login, q)] + (if Completing(s, o.world, login, q) then 1 else 0)
  {
    hide Recorded, Moved, After;
    var flipped := Flipped(s.owner, s.world.players, o.world.players);
    assert (login, q) in flipped <==> Completing(s, o.world, login, q);
  }

  /** A creation is counted exactly when it puts a new player into the world. */
  lemma CreationsAreCounted(s: Server, sid: nat, args: seq<string>, name: string)
    requires sid in s.sessions
    ensures
      var s' := DoCreate(s, sid, args);
      s'.created[name] == s.created[name] + (if name !in s.world.players && name in s'.world.players then 1 else 0)
  {
    hide InitQuests, IsValidName;
  }

  /** An invite is counted as issued exactly when the world gains it, in any command, and as accepted exactly
      when the world loses it. */
  lemma InvitesAreCounted(s: Server, sid: nat, command: Command, e: (string, string))
    requires sid in s.sessions && s.sessions[sid].player != ""
    ensures
      var s' := DoHandle(s, sid, command);
      && (s'.groupLog.issued[e] > s.groupLog.issued[e] <==> s'.world.invites[e] > s.world.invites[e])
      && (s'.groupLog.accepted[e] > s.groupLog.accepted[e] <==> s'.world.invites[e] < s.world.invites[e])
  {
    hide Run, EventOf, Recorded, Commit, DoHandle;
    var session := s.sessions[sid];
    var o := Run(s.world, session.player, session.room, command);
    HandleShape(s, sid, command);
    if o.Outcome? {
      CommitShape(s, sid, o, EventOf(s.world, session.player, command, o));
      CommandIsCounted(s.world, session.player, session.room, command, s.groupLog, e);
    }
  }

  lemma CommandIsCounted(w: World, pid: string, room: string, command: Command, log: GroupLog, e: (string, string))
    requires Run(w, pid, room, command).Outcome?
    ensures
      var o := Run(w, pid, room, command);
      var log' := Recorded(log, w, o.world, EventOf(w, pid, command, o));
      && (log'.issued[e] > log.issued[e] <==> o.world.invites[e] > w.invites[e])
      && (log'.accepted[e] > log.accepted[e] <==> o.world.invites[e] < w.invites[e])
  {
    hide Joined, GroupCreate, GroupInvite, GroupAccept, GroupLeave, Move, Take, Drop, Use, Attack, Talk;
    match command {
      case Invite(args) => InviteShape(w, pid, room, args);
      case AcceptInvite(args) => AcceptShape(w, pid, room, args);
      case CreateGroup(args) => CreateShape(w, pid, room, args);
      case QuitGroup => QuitShape(w, pid, room);
      case _ => OthersKeepInvites(w, pid, room, command);
    }
  }

  /** What each group command does to the invites. */
  lemma InviteShape(w: World, pid: string, room: string, args: seq<string>)
    ensures
      var o := GroupInvite(w, pid, room, args);
      && o.Outcome? && (o.reply != Ok ==> o.world.invites == w.invites)
      && (o.reply == Ok ==>
            |args| > 1 && o.world.invites == w.invites + multiset{(args[1], GroupOf(w.playerGroup, pid))})
  {
  }

  lemma AcceptShape(w: World, pid: string, room: string, args: seq<string>)
    ensures
      var o := GroupAccept(w, pid, room, args);
      && o.Outcome? && (o.reply != Ok ==> o.world.invites == w.invites)
      && (o.reply == Ok ==>
            |args| > 1 && (pid, args[1]) in w.invites && o.world.invites == w.invites - multiset{(pid, args[1])})
  {
    hide HasKeyFrom, LeaveGroup;
    LeaveTouches(w, pid);
  }

  lemma CreateShape(w: World, pid: string, room: string, args: seq<string>)
    ensures GroupCreate(w, pid, room, args).Outcome? && GroupCreate(w, pid, room, args).world.invites == w.invites
  {
  }

  lemma QuitShape(w: World, pid: string, room: string)
    ensures GroupLeave(w, pid, room).world.invites == w.invites
  {
    hide LeaveGroup;
    LeaveTouches(Touched(w, pid), pid);
  }

  lemma OthersKeepInvites(w: World, pid: string, room: string, command: Command)
    requires !IsGroupCommand(command)
    ensures var o := Run(w, pid, room, command); o.Outcome? ==> o.world.invites == w.invites
  {
    hide Resolve, NextProgress, Without, JoinFrom;
    match command {
      case UseItem(args) =>
      case AttackNpc(args, roll) =>
      case _ =>
    }
  }

  /** The memberships that begin in any step, whichever it is, are the ones counted as entered. */
  lemma EntriesAreCounted(s: Server, a: Action)
    requires Enabled(s, a) && !Step(s, a).threw && !s.threw
    ensures EntersCounted(s, Step(s, a))
  {
    hide DoHandle, DoLogin, DoDisconnect, DoCreate, DoFollowUp, Joined, FairRoll, IsOrderOf, InitQuests, IsValidName, Recorded;
    SameMembership(s.world.playerGroup);
    match a {
      case Handle(sid, command) =>
        if s.sessions[sid].player != "" {
          HandleShape(s, sid, command);
          SectionEnters(s, sid, Run(s.world, s.sessions[sid].player, s.sessions[sid].room, command), HandledEvent(s, sid, command));
        } else {
          assert DoHandle(s, sid, command) == s by { NobodyHandles(s, sid, command); }
        }
      case FollowUp(sid, qs, ps) => FollowUpEnters(s, sid, qs, ps);
      case Create(sid, args) => CreateEnters(s, sid, args);
      case Login(sid) => LoginShape(s, sid);
      case Disconnect(sid) =>
        DisconnectShape(s, sid);
        DepartingEntersNothing(s.world, s.sessions[sid].player);
      case _ =>
    }
  }

  ghost predicate EntersCounted(s: Server, s': Server) {
    s'.groupLog.entered == s.groupLog.entered + multiset(Joined(s.world.playerGroup, s'.world.playerGroup))
  }

  lemma NobodyHandles(s: Server, sid: nat, command: Command)
    requires sid in s.sessions && s.sessions[sid].player == ""
    ensures DoHandle(s, sid, command) == s
  {
  }

  lemma SectionEnters(s: Server, sid: nat, o: Outcome, event: GroupEvent)
    requires sid in s.sessions && !Commit(s, sid, o, event).threw
    ensures EntersCounted(s, Commit(s, sid, o, event))
  {
    hide Joined, Moved, Flipped, After;
    if o.Outcome? {
      CommitShape(s, sid, o, event);
    }
  }

  lemma FollowUpEnters(s: Server, sid: nat, qs: seq<string>, ps: seq<string>)
    requires sid in s.sessions && s.sessions[sid].pc.Saving? && !DoFollowUp(s, sid, qs, ps).threw
    ensures EntersCounted(s, DoFollowUp(s, sid, qs, ps))
  {
    hide Commit, EntersCounted, Joined, OnItemTaken, OnNpcDefeated;
    if s.sessions[sid].pc.follow != Nothing {
      SectionEnters(s, sid, FollowUpOutcome(s, sid, qs, ps), NoEvent);
    } else {
      NothingEnters(s);
    }
  }

  lemma NothingEnters(s: Server)
    ensures EntersCounted(s, s)
  {
    SameMembership(s.world.playerGroup);
  }

  lemma CreateEnters(s: Server, sid: nat, args: seq<string>)
    requires sid in s.sessions
    ensures EntersCounted(s, DoCreate(s, sid, args))
  {
    hide Joined, InitQuests, IsValidName;
    SameMembership(s.world.playerGroup);
  }

  lemma DepartingEntersNothing(w: World, name: string)
    ensures Joined(w.playerGroup, Depart(w, name).playerGroup) == {}
  {
    LeavingEntersNothing(w.(players := w.players - {name}), name);
  }

  lemma LeavingEntersNothing(w: World, pid: string)
    ensures Joined(w.playerGroup, LeaveGroup(w, pid).playerGroup) == {}
  {
  }

  /** Only USE consumes an item: one from the player's inventory that heals or harms. */
  lemma OnlyUseConsumes(w: World, pid: string, room: string, command: Command)
    ensures
      var o := Run(w, pid, room, command);
      o.Outcome? && o.transfer.Consumed? ==>
        && command.UseItem? && pid in w.players && o.transfer.item in w.players[pid].inventory
        && o.transfer.item in w.items && w.items[o.transfer.item].effect != NoEffect
  {
    hide HurtNpc, LeaveGroup, HasKeyFrom, Touched, NextProgress, InitQuests, DeathOf;
    match command {
      case UseItem(args) =>
      case AttackNpc(args, roll) =>
      case _ =>
    }
  }
}
