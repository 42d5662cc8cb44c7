/** The sections that `LiveWorld` runs in place are the steps that runs are made of. */
module LiveSteps {
  import opened WorldModel
  import opened Sections
  import opened Server
  import opened StepShapes
  import opened Commits
  import opened LiveWorld

  /** A command: the step takes over world, room, saves and follow-up, or records the failed lookup. */
  lemma CommandIsTheStep(s: Server, sid: nat, command: Command, r: Result, w: World, room: string)
    requires sid in s.sessions && s.sessions[sid].pc.Idle?
    requires
      var session := s.sessions[sid];
      Ends(IfConnected(session.player, s.world, session.room, Run(s.world, session.player, session.room, command)), r, w, room)
    ensures
      var s', session := DoHandle(s, sid, command), s.sessions[sid];
      && (r.Thrown? ==> s' == s.(threw := true))
      && (r.Done? ==>
            && s'.world == w && s'.threw == s.threw && s'.disk == s.disk
            && s'.sessions == s.sessions[sid := session.(room := room, pc := After(r.saves, r.follow))])
  {
    hide Run, Commit, DoHandle, EventOf;
    var session := s.sessions[sid];
    if session.player == "" {
      NobodyHandles(s, sid, command);
      assert s.sessions[sid := session] == s.sessions;
    } else {
      HandleShape(s, sid, command);
      var o := Run(s.world, session.player, session.room, command);
      if o.Outcome? {
        CommitShape(s, sid, o, EventOf(s.world, session.player, command, o));
      }
    }
  }

  lemma NobodyHandles(s: Server, sid: nat, command: Command)
    requires sid in s.sessions && s.sessions[sid].player == ""
    ensures DoHandle(s, sid, command) == s
  {
  }

  /** The section after a kill or a pick-up. */
  lemma FollowUpIsTheStep(s: Server, sid: nat, questOrder: seq<string>, playerOrder: seq<string>, r: Result, w: World, room: string)
    requires sid in s.sessions && s.sessions[sid].pc.Saving? && s.sessions[sid].pc.follow != Nothing
    requires Ends(FollowUpOutcome(s, sid, questOrder, playerOrder), r, w, room)
    ensures
      var s', session := DoFollowUp(s, sid, questOrder, playerOrder), s.sessions[sid];
      && r.Done? && s'.world == w && s'.threw == s.threw && s'.disk == s.disk
      && s'.sessions == s.sessions[sid := session.(room := room, pc := After(r.saves, r.follow))]
  {
    hide FetchPass, DefeatPass, Commit, After;
    CommitShape(s, sid, FollowUpOutcome(s, sid, questOrder, playerOrder), NoEvent);
  }

  /** What GROUP does with each of its words; JOIN is another word for ACCEPT. */
  lemma GroupWordsMean(w: World, pid: string, room: string, args: seq<string>, command: Command)
    requires args != []
    requires
      match command
      case CreateGroup(a) => a == args && args[0] == "CREATE"
      case Invite(a) => a == args && args[0] == "INVITE"
      case AcceptInvite(a) => a == args && (args[0] == "ACCEPT" || args[0] == "JOIN")
      case QuitGroup => args[0] == "LEAVE"
      case _ => false
    ensures GroupCommand(w, pid, room, args) == Run(w, pid, room, command)
  {
    hide GroupCreate, GroupInvite, GroupAccept, GroupLeave;
    assert "CREATE"[0] != "INVITE"[0] && "CREATE"[0] != "ACCEPT"[0] && "CREATE"[0] != "JOIN"[0] && "CREATE"[0] != "LEAVE"[0];
    assert "INVITE"[0] != "ACCEPT"[0] && "INVITE"[0] != "JOIN"[0] && "INVITE"[0] != "LEAVE"[0];
    assert "ACCEPT"[0] != "LEAVE"[0] && "JOIN"[0] != "LEAVE"[0];
  }

  /** Who may create which character, and what the others are told. */
  lemma CreateAnswers(w: World, player: string, room: string, args: seq<string>, onDisk: bool)
    ensures
      var end := CreateSection(w, player, room, args, onDisk);
      var named := args != [] && IsValidName(args[0]);
      && end.result.Done? && end.result.follow == Nothing
      && (end.result.reply == Ok <==> player == "" && named && args[0] !in w.players && !onDisk)
      && (end.result.reply != Ok ==>
            end == LoginEnd(w, player, room, Refused(if player == "" && !named then BadMessage else NameInUse)))
      && (end.result.reply == Ok ==>
            && end.player == args[0] && end.room == "loc.start" && args[0] in end.world.players
            && end.result.saves == [end.world.players[args[0]]]
            && end.result.saves[0].race == (if |args| > 1 then args[1] else "") && end.result.saves[0].attributes == JoinFrom(args, 2))
  {
    hide IsValidName, JoinFrom, AlreadyDone;
  }

  /** Who may go on to log in, and what the others are told. */
  lemma ConnectAnswers(w: World, player: string, args: seq<string>)
    ensures
      var r, named := StartConnectSection(w, player, args), args != [] && IsValidName(args[0]);
      && (r == Done(Ok, [], Nothing) <==> player == "" && named && args[0] !in w.players)
      && (r == Done(Ok, [], Nothing) || r == Refused(if player == "" && !named then BadMessage else NameInUse))
  {
    hide IsValidName;
  }

  /** CREATE_CHARACTER, when the file system answers for the disk. */
  lemma CreateIsTheStep(s: Server, sid: nat, args: seq<string>)
    requires sid in s.sessions && s.sessions[sid].pc.Idle?
    ensures
      var s', session := DoCreate(s, sid, args), s.sessions[sid];
      var end := CreateSection(s.world, session.player, session.room, args, args != [] && args[0] in s.disk);
      && s'.world == end.world && end.result.Done?
      && s'.sessions == s.sessions[sid := Session(end.player, end.room, After(end.result.saves, end.result.follow))]
  {
    hide IsValidName, InitQuests, JoinFrom, DoCreate;
    var session := s.sessions[sid];
    if CreateRefused(s.world, session.player, args, args != [] && args[0] in s.disk) {
      CreateRefusal(s, sid, args);
      assert s.sessions == s.sessions[sid := Session(session.player, session.room, Idle)];
    } else {
      CreateAccepted(s, sid, args);
      CreateShape(s, sid, args);
    }
  }

  lemma CreateRefusal(s: Server, sid: nat, args: seq<string>)
    requires sid in s.sessions && CreateRefused(s.world, s.sessions[sid].player, args, args != [] && args[0] in s.disk)
    ensures DoCreate(s, sid, args) == s
  {
    hide IsValidName, InitQuests;
  }

  lemma CreateAccepted(s: Server, sid: nat, args: seq<string>)
    requires sid in s.sessions && !CreateRefused(s.world, s.sessions[sid].player, args, args != [] && args[0] in s.disk)
    ensures DoCreate(s, sid, args) != s
  {
    hide IsValidName, InitQuests;
    assert args[0] in DoCreate(s, sid, args).world.players;
  }

  /** The first section of CONNECT: its thread goes on to the file exactly if the section says Ok. */
  lemma ConnectIsTheStep(s: Server, sid: nat, args: seq<string>)
    requires sid in s.sessions
    ensures
      var session := s.sessions[sid];
      DoConnect(s, sid, args) ==
        if StartConnectSection(s.world, session.player, args).reply == Ok then SetPc(s, sid, Seeking(args[0])) else s
  {
    hide IsValidName;
  }

  /** The second section of CONNECT. */
  lemma LoginIsTheStep(s: Server, sid: nat)
    requires sid in s.sessions && s.sessions[sid].pc.Found?
    ensures
      var s', session := DoLogin(s, sid), s.sessions[sid];
      var end := EnterSection(s.world, session.player, session.room, session.pc.name, session.pc.state);
      s'.world == end.world && s'.sessions == s.sessions[sid := Session(end.player, end.room, Idle)]
  {
    hide InitQuests;
    var name := s.sessions[sid].pc.name;
    if name in s.world.players {
      assert DoLogin(s, sid).sessions == s.sessions[sid := s.sessions[sid].(pc := Idle)];
    }
  }

  /** The disconnect section, with the states its method returns for the final save. */
  lemma DisconnectIsTheStep(s: Server, sid: nat, finals: seq<PlayerState>)
    requires sid in s.sessions
    requires
      var name := s.sessions[sid].player;
      finals == if name != "" && name in s.world.players then [s.world.players[name]] else []
    ensures
      var s', name := DoDisconnect(s, sid), s.sessions[sid].player;
      && s'.world == (if name == "" then s.world else Depart(s.world, name))
      && sid in s'.sessions && s'.sessions[sid].pc == if finals == [] then Closed else Leaving(finals)
  {
    hide DoDisconnect, Depart;
    DisconnectShape(s, sid);
  }
}
