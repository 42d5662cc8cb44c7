/** What the login and logout steps change of the server, field by field. */
module StepShapes {
  import opened WorldModel
  import opened Sections
  import opened Server

  /** What CREATE_CHARACTER changes, if it is not refused. */
  lemma CreateShape(s: Server, sid: nat, args: seq<string>)
    requires sid in s.sessions && DoCreate(s, sid, args) != s
    ensures s.sessions[sid].player == "" && args != [] && IsValidName(args[0]) && args[0] !in s.world.players && args[0] !in s.disk
    ensures
      var s', name := DoCreate(s, sid, args), args[0];
      var p := InitQuests(s.world, NewCharacter(name, if |args| > 1 then args[1] else "", JoinFrom(args, 2)));
      && s'.world == WithPlayer(s.world, p, name)
      && s'.sessions == s.sessions[sid := Session(name, START_ROOM, Saving([p], Nothing))]
      && s'.owner == s.owner[name := sid] && s'.created == s.created + multiset{name} && s'.firstLogin == s.firstLogin + {name}
      && s'.disk == s.disk && s'.threw == s.threw && s'.flips == s.flips && s'.groupLog == s.groupLog && s'.place == s.place && s'.logout == s.logout
  {
    hide IsValidName, InitQuests, JoinFrom;
  }

  /** What the second section of CONNECT changes besides the new player. */
  lemma LoginShape(s: Server, sid: nat)
    requires sid in s.sessions && s.sessions[sid].pc.Found?
    ensures
      var s', name := DoLogin(s, sid), s.sessions[sid].pc.name;
      && s'.threw == s.threw && s'.groupLog == s.groupLog && s'.firstLogin == s.firstLogin && s'.disk == s.disk
      && (forall p {:trigger p in s'.owner} :: p != name && p in s.owner ==> p in s'.owner && s'.owner[p] == s.owner[p])
      && s'.world == s.world.(players := s'.world.players)
      && s'.world.players.Keys == s.world.players.Keys + {name}
      && (forall p {:trigger s'.world.players[p]} :: p in s.world.players ==> s'.world.players[p] == s.world.players[p])
      && sid in s'.sessions && s'.sessions == s.sessions[sid := s'.sessions[sid]]
  {
    hide InitQuests;
    var name, loaded, s' := s.sessions[sid].pc.name, s.sessions[sid].pc.state, DoLogin(s, sid);
    if name in s.world.players {
      assert s'.sessions == s.sessions[sid := s.sessions[sid].(pc := Idle)];
    } else {
      assert s'.sessions == s.sessions[sid := Session(name, loaded.room, Idle)];
      assert s'.world.players == s.world.players[name := InitQuests(s.world, loaded)];
    }
  }

  /** What the disconnect section changes besides the world. */
  lemma DisconnectShape(s: Server, sid: nat)
    requires sid in s.sessions
    ensures
      var s', name := DoDisconnect(s, sid), s.sessions[sid].player;
      && s'.threw == s.threw && s'.groupLog == s.groupLog && s'.disk == s.disk && s'.created == s.created && s'.place == s.place
      && s'.logout == (if name != "" && name in s.world.players then s.logout[name := s.world.players[name]] else s.logout)
      && s'.world == (if name == "" then s.world else Depart(s.world, name))
      && s'.firstLogin == (if name == "" then s.firstLogin else s.firstLogin - {name})
      && s'.owner == (if name == "" then s.owner else s.owner - {name})
      && sid in s'.sessions && s'.sessions == s.sessions[sid := s'.sessions[sid]]
      && s'.sessions[sid].pc == (if name != "" && name in s.world.players then Leaving([s.world.players[name]]) else Closed)
  {
    hide Depart;
    var s', name := DoDisconnect(s, sid), s.sessions[sid].player;
    if name == "" {
      assert s'.sessions == s.sessions[sid := s.sessions[sid].(pc := Closed)];
    } else if name !in s.world.players {
      assert s'.sessions == s.sessions[sid := s.sessions[sid].(pc := Closed)];
    } else {
      assert s'.sessions == s.sessions[sid := s.sessions[sid].(pc := Leaving([s.world.players[name]]))];
    }
  }

  /** What a section of a handler changes of the server. */
  lemma CommitShape(s: Server, sid: nat, o: Outcome, event: GroupEvent)
    requires sid in s.sessions && o.Outcome?
    ensures
      var s', session := Commit(s, sid, o, event), s.sessions[sid];
      && s'.world == o.world && s'.threw == s.threw && s'.disk == s.disk && s'.firstLogin == s.firstLogin
      && s'.owner == s.owner && s'.logout == s.logout
      && s'.groupLog == Recorded(s.groupLog, s.world, o.world, event)
      && s'.place == Moved(s.place, session.player, RoomOf(s.world, session.player), o.transfer)
      && s'.sessions == s.sessions[sid := session.(room := o.room, pc := After(o.saves, o.follow))]
  {
    hide Recorded, Moved, Flipped, After;
  }

  /** The same for a command, which may also find nobody logged in or fail a lookup. */
  lemma HandleShape(s: Server, sid: nat, command: Command)
    requires sid in s.sessions && s.sessions[sid].player != ""
    ensures
      var session := s.sessions[sid];
      var o := Run(s.world, session.player, session.room, command);
      && (o.Outcome? ==> DoHandle(s, sid, command) == Commit(s, sid, o, EventOf(s.world, session.player, command, o)))
      && (o.Threw? ==> DoHandle(s, sid, command) == s.(threw := true))
  {
    hide Run, EventOf, Recorded, Moved, Flipped, After;
  }
}
