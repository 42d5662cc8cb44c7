/** Live sessions and online players stay in bijection, and a name is created at most once. */
module LoginProof {
  import opened WorldModel
  import opened Sections
  import opened WorldRules
  import opened Server
  import opened Invariants
  import opened Commits
  import opened StatesProof
  import opened StepShapes

  // ---- sessions and players ------------------------------------------------------------------

  /** A session that stays the same player's, in the same room, and as live as it was. */
  lemma SessionUpdate(
    sessions: map<nat, Session>, players: map<string, PlayerState>, owner: map<string, nat>, sid: nat, pc: Pc)
    requires LoginInv(sessions, players, owner) && sid in sessions
    requires pc.Seeking? || pc.Found? ==> sessions[sid].player == "" && pc.name != ""
    requires pc.Saving? ==> sessions[sid].player != ""
    requires Live(sessions[sid].(pc := pc)) <==> Live(sessions[sid])
    ensures LoginInv(sessions[sid := sessions[sid].(pc := pc)], players, owner)
  {
  }

  lemma AcceptLogin(sessions: map<nat, Session>, players: map<string, PlayerState>, owner: map<string, nat>, sid: nat)
    requires LoginInv(sessions, players, owner) && sid !in sessions
    ensures LoginInv(sessions[sid := Session("", "", Idle)], players, owner)
  {
  }

  /** A section that moves only its own player, and tells the session where to. */
  ghost predicate KeepsRooms(w: World, pid: string, o: Outcome) {
    && o.Outcome? && o.world.players.Keys == w.players.Keys
    && (forall p {:trigger o.world.players[p]} :: p in w.players && p != pid ==> o.world.players[p].room == w.players[p].room)
    && pid in o.world.players && o.room == o.world.players[pid].room
  }

  lemma TameKeepsRooms(base: World, w: World, pid: string, o: Outcome)
    requires Tame(base, w, pid, o)
    ensures KeepsRooms(w, pid, o)
  {
    hide WorldOk, PlayersGood, SavesGood, HpFalls, SavesOf, StatusesAdvance;
  }

  lemma CommitLogin(s: Server, sid: nat, o: Outcome, event: GroupEvent)
    requires LoginInv(s.sessions, s.world.players, s.owner)
    requires sid in s.sessions && Live(s.sessions[sid]) && KeepsRooms(s.world, s.sessions[sid].player, o)
    ensures var s' := Commit(s, sid, o, event); LoginInv(s'.sessions, s'.world.players, s'.owner)
  {
    hide Recorded, Moved, Flipped;
    var s' := Commit(s, sid, o, event);
    var players, players' := s.world.players, s'.world.players;
    forall n | n in s'.sessions ensures SessionOk(s'.sessions[n], n, players', s'.owner) {
      assert SessionOk(s.sessions[n], n, players, s.owner);
      if n != sid && Live(s.sessions[n]) {
        assert s.sessions[n].player != s.sessions[sid].player;
      }
    }
  }

  /** A new live session for a player who was not online. */
  lemma EnterLogin(
    sessions: map<nat, Session>, players: map<string, PlayerState>, owner: map<string, nat>, sid: nat,
    name: string, p: PlayerState, pc: Pc)
    requires LoginInv(sessions, players, owner) && sid in sessions && sessions[sid].player == ""
    requires name !in players && name != "" && (pc.Idle? || pc.Saving?)
    ensures LoginInv(sessions[sid := Session(name, p.room, pc)], players[name := p], owner[name := sid])
  {
    var players', owner' := players[name := p], owner[name := sid];
    var sessions' := sessions[sid := Session(name, p.room, pc)];
    forall n | n in sessions' ensures SessionOk(sessions'[n], n, players', owner') {
      if n != sid {
        assert SessionOk(sessions[n], n, players, owner);
      }
    }
  }

  lemma LeaveLogin(
    sessions: map<nat, Session>, players: map<string, PlayerState>, owner: map<string, nat>, sid: nat, pc: Pc)
    requires LoginInv(sessions, players, owner) && sid in sessions && Live(sessions[sid])
    requires pc.Leaving? || pc.Closed?
    ensures
      var name := sessions[sid].player;
      name in players && LoginInv(sessions[sid := sessions[sid].(pc := pc)], players - {name}, owner - {name})
  {
    var name := sessions[sid].player;
    assert SessionOk(sessions[sid], sid, players, owner);
    var sessions' := sessions[sid := sessions[sid].(pc := pc)];
    forall n | n in sessions' ensures SessionOk(sessions'[n], n, players - {name}, owner - {name}) {
      assert SessionOk(sessions[n], n, players, owner);
    }
  }

  lemma SessionIsOk(sessions: map<nat, Session>, players: map<string, PlayerState>, owner: map<string, nat>, sid: nat)
    requires LoginInv(sessions, players, owner) && sid in sessions
    ensures SessionOk(sessions[sid], sid, players, owner)
  {
  }

  lemma CreateLogin(s: Server, sid: nat, args: seq<string>)
    requires LoginInv(s.sessions, s.world.players, s.owner) && sid in s.sessions
    ensures var s' := DoCreate(s, sid, args); LoginInv(s'.sessions, s'.world.players, s'.owner)
  {
    hide LoginInv, AlreadyDone;
    if DoCreate(s, sid, args) != s {
      var name, race, attributes := args[0], if |args| > 1 then args[1] else "", JoinFrom(args, 2);
      var p := InitQuests(s.world, NewCharacter(name, race, attributes));
      EnterLogin(s.sessions, s.world.players, s.owner, sid, name, p, Saving([p], Nothing));
    }
  }

  lemma ConnectLogin(s: Server, sid: nat, args: seq<string>)
    requires LoginInv(s.sessions, s.world.players, s.owner) && sid in s.sessions && s.sessions[sid].pc.Idle?
    ensures var s' := DoConnect(s, sid, args); LoginInv(s'.sessions, s'.world.players, s'.owner)
  {
    hide LoginInv;
    if DoConnect(s, sid, args) != s {
      SessionUpdate(s.sessions, s.world.players, s.owner, sid, Seeking(args[0]));
    }
  }

  lemma ReadFileLogin(s: Server, sid: nat)
    requires LoginInv(s.sessions, s.world.players, s.owner) && sid in s.sessions && s.sessions[sid].pc.Seeking?
    ensures var s' := DoReadFile(s, sid); LoginInv(s'.sessions, s'.world.players, s'.owner)
  {
    hide LoginInv;
    var name := s.sessions[sid].pc.name;
    SessionIsOk(s.sessions, s.world.players, s.owner, sid);
    SessionUpdate(s.sessions, s.world.players, s.owner, sid, if name in s.disk then Found(name, s.disk[name]) else Idle);
  }

  lemma LoginLogin(s: Server, sid: nat)
    requires LoginInv(s.sessions, s.world.players, s.owner) && sid in s.sessions && s.sessions[sid].pc.Found?
    ensures var s' := DoLogin(s, sid); LoginInv(s'.sessions, s'.world.players, s'.owner)
  {
    hide LoginInv;
    var name, loaded := s.sessions[sid].pc.name, s.sessions[sid].pc.state;
    SessionIsOk(s.sessions, s.world.players, s.owner, sid);
    if name in s.world.players {
      SessionUpdate(s.sessions, s.world.players, s.owner, sid, Idle);
    } else {
      EnterLogin(s.sessions, s.world.players, s.owner, sid, name, InitQuests(s.world, loaded), Idle);
    }
  }

  lemma SaveLogin(s: Server, sid: nat)
    requires LoginInv(s.sessions, s.world.players, s.owner) && sid in s.sessions && HasSave(s.sessions[sid].pc)
    ensures var s' := DoSave(s, sid); LoginInv(s'.sessions, s'.world.players, s'.owner)
  {
    hide LoginInv;
    var pc := s.sessions[sid].pc;
    var rest := pc.saves[1..];
    SessionIsOk(s.sessions, s.world.players, s.owner, sid);
    var pc' := if pc.Saving? then After(rest, pc.follow) else if rest == [] then Closed else Leaving(rest);
    SessionUpdate(s.sessions, s.world.players, s.owner, sid, pc');
  }

  lemma DisconnectLogin(s: Server, sid: nat)
    requires LoginInv(s.sessions, s.world.players, s.owner) && sid in s.sessions && s.sessions[sid].pc.Idle?
    ensures var s' := DoDisconnect(s, sid); LoginInv(s'.sessions, s'.world.players, s'.owner)
  {
    hide LoginInv, Depart;
    var name := s.sessions[sid].player;
    SessionIsOk(s.sessions, s.world.players, s.owner, sid);
    DepartKeeps(s.world, name);
    if name == "" {
      SessionUpdate(s.sessions, s.world.players, s.owner, sid, Closed);
    } else {
      LeaveLogin(s.sessions, s.world.players, s.owner, sid, Leaving([s.world.players[name]]));
    }
  }

  // ---- names ---------------------------------------------------------------------------------

  /** The part of `NamesInv` about one name that is online. */
  ghost predicate Anchored(s: Server, n: string) {
    n in s.disk || (n in s.owner && s.owner[n] in s.sessions && s.sessions[s.owner[n]].pc.Saving? && Saves(s.sessions[s.owner[n]].pc, n))
  }

  lemma AllAnchored(s: Server)
    requires NamesInv(s)
    ensures forall n :: n in s.world.players ==> Anchored(s, n)
    ensures forall n :: n in s.created <==> n in s.world.players || n in s.disk
    ensures forall n :: s.created[n] <= 1
  {
    hide Saves, PcNamed;
  }

  lemma NamesFrom(s: Server)
    requires forall n :: n in s.world.players ==> Anchored(s, n)
    requires forall n :: n in s.created <==> n in s.world.players || n in s.disk
    requires forall n :: s.created[n] <= 1
    requires forall sid {:trigger s.sessions[sid]} :: sid in s.sessions ==> PcNamed(s.sessions[sid].pc, s.created, s.disk)
    ensures NamesInv(s)
  {
    hide Saves, PcNamed;
  }

  /** A step in which no name comes or goes and one thread, which had nothing to save, moves on. */
  lemma NamesUpdate(s: Server, s': Server, sid: nat)
    requires NamesInv(s) && sid in s.sessions && sid in s'.sessions
    requires s'.world.players.Keys == s.world.players.Keys && s'.created == s.created && s'.disk == s.disk && s'.owner == s.owner
    requires s'.sessions == s.sessions[sid := s'.sessions[sid]]
    requires PendingSaves(s.sessions[sid].pc) == []
    requires PcNamed(s'.sessions[sid].pc, s.created, s.disk)
    ensures NamesInv(s')
  {
    hide NamesInv, Saves, PcNamed;
    AllAnchored(s);
    PcsNamed(s);
    forall n | n in s'.world.players ensures Anchored(s', n) {
      assert Anchored(s, n);
      NothingSaved(s.sessions[sid].pc, n);
    }
    NamesFrom(s');
  }

  lemma PcsNamed(s: Server)
    requires NamesInv(s)
    ensures forall sid {:trigger s.sessions[sid]} :: sid in s.sessions ==> PcNamed(s.sessions[sid].pc, s.created, s.disk)
  {
    hide Saves, PcNamed;
  }

  lemma NothingSaved(pc: Pc, n: string)
    requires PendingSaves(pc) == []
    ensures !Saves(pc, n)
  {
  }

  lemma AcceptNames(s: Server, sid: nat)
    requires NamesInv(s) && sid !in s.sessions
    ensures NamesInv(SetSession(s, sid, Session("", "", Idle)))
  {
    hide NamesInv, Saves;
    AllAnchored(s);
    PcsNamed(s);
    var s' := SetSession(s, sid, Session("", "", Idle));
    forall n | n in s'.world.players ensures Anchored(s', n) {
      assert Anchored(s, n);
    }
    NamesFrom(s');
  }

  lemma CommitNames(base: World, s: Server, sid: nat, o: Outcome, event: GroupEvent)
    requires NamesInv(s) && sid in s.sessions && Tame(base, s.world, s.sessions[sid].player, o)
    requires PendingSaves(s.sessions[sid].pc) == []
    ensures NamesInv(Commit(s, sid, o, event))
  {
    hide NamesInv, PlayersGood, SavesGood, HpFalls, MapOk, Recorded, Moved, Flipped, StatusesAdvance;
    AllAnchored(s);
    var s' := Commit(s, sid, o, event);
    var pc := s'.sessions[sid].pc;
    forall i | 0 <= i < |PendingSaves(pc)| ensures PendingSaves(pc)[i].id in s.created {
      assert o.saves[i].id in s.world.players;
    }
    NamesUpdate(s, s', sid);
  }

  lemma ConnectNames(s: Server, sid: nat, args: seq<string>)
    requires NamesInv(s) && sid in s.sessions && s.sessions[sid].pc.Idle?
    ensures NamesInv(DoConnect(s, sid, args))
  {
    hide NamesInv, IsValidName;
    if DoConnect(s, sid, args) != s {
      NamesUpdate(s, DoConnect(s, sid, args), sid);
    }
  }

  lemma ReadFileNames(s: Server, sid: nat)
    requires NamesInv(s) && sid in s.sessions && s.sessions[sid].pc.Seeking?
    ensures NamesInv(DoReadFile(s, sid))
  {
    hide NamesInv;
    NamesUpdate(s, DoReadFile(s, sid), sid);
  }

  /** The name reserved under the lock is new: neither in memory nor on disk, so never created before. */
  lemma CreateNames(s: Server, sid: nat, args: seq<string>)
    requires NamesInv(s) && sid in s.sessions && s.sessions[sid].pc.Idle?
    ensures NamesInv(DoCreate(s, sid, args))
  {
    hide NamesInv, IsValidName, InitQuests, DoCreate, JoinFrom;
    var s' := DoCreate(s, sid, args);
    if s' != s {
      CreateShape(s, sid, args);
      AllAnchored(s);
      PcsNamed(s);
      var name := args[0];
      var p := s'.world.players[name];
      assert p.id == name by { InitQuestsId(s.world, name, if |args| > 1 then args[1] else "", JoinFrom(args, 2)); }
      assert PendingSaves(s'.sessions[sid].pc)[0].id == name;
      assert s.created[name] == 0;
      forall n | n in s'.world.players ensures Anchored(s', n) {
        if n != name {
          assert Anchored(s, n);
        }
      }
      forall t | t in s'.sessions ensures PcNamed(s'.sessions[t].pc, s'.created, s'.disk) {
        if t != sid {
          assert PcNamed(s.sessions[t].pc, s.created, s.disk);
        }
      }
      NamesFrom(s');
    }
  }

  lemma InitQuestsId(w: World, name: string, race: string, attributes: string)
    ensures InitQuests(w, NewCharacter(name, race, attributes)).id == name
  {
  }

  lemma LoginNames(s: Server, sid: nat)
    requires NamesInv(s) && LoginInv(s.sessions, s.world.players, s.owner)
    requires sid in s.sessions && s.sessions[sid].pc.Found?
    ensures NamesInv(DoLogin(s, sid))
  {
    hide NamesInv, LoginInv, InitQuests, Saves;
    AllAnchored(s);
    PcsNamed(s);
    var name := s.sessions[sid].pc.name;
    var s' := DoLogin(s, sid);
    if name in s.world.players {
      NamesUpdate(s, s', sid);
    } else {
      forall n | n in s'.world.players ensures Anchored(s', n) {
        if n != name {
          assert Anchored(s, n);
        }
      }
      NamesFrom(s');
    }
  }

  lemma SaveNames(s: Server, sid: nat)
    requires NamesInv(s) && sid in s.sessions && HasSave(s.sessions[sid].pc)
    ensures NamesInv(DoSave(s, sid))
  {
    hide NamesInv, Saves;
    AllAnchored(s);
    PcsNamed(s);
    var s' := DoSave(s, sid);
    var pc, pc' := s.sessions[sid].pc, s'.sessions[sid].pc;
    var saved := pc.saves[0].id;
    assert PendingSaves(pc)[0].id in s.created;
    forall n | n in s'.world.players ensures Anchored(s', n) {
      assert Anchored(s, n);
      if n != saved && n !in s.disk && s.owner[n] == sid {
        SavedLater(pc, pc', n);
      }
    }
    forall t | t in s'.sessions ensures PcNamed(s'.sessions[t].pc, s'.created, s'.disk) {
      assert PcNamed(s.sessions[t].pc, s.created, s.disk);
      if t == sid {
        forall i | 0 <= i < |PendingSaves(pc')| ensures PendingSaves(pc')[i].id in s.created {
          assert PendingSaves(pc')[i] == PendingSaves(pc)[i + 1];
        }
      }
    }
    NamesFrom(s');
  }

  lemma SavedLater(pc: Pc, pc': Pc, n: string)
    requires pc.Saving? && Saves(pc, n) && pc.saves[0].id != n
    requires pc' == After(pc.saves[1..], pc.follow)
    ensures pc'.Saving? && Saves(pc', n)
  {
    var i :| 0 <= i < |PendingSaves(pc)| && PendingSaves(pc)[i].id == n;
    assert pc.saves[1..][i - 1].id == n;
    assert PendingSaves(pc')[i - 1].id == n;
  }

  /** A player can leave only when its thread is between commands, so its name is on disk by then. */
  lemma DisconnectNames(s: Server, sid: nat)
    requires NamesInv(s) && LoginInv(s.sessions, s.world.players, s.owner) && sid in s.sessions && s.sessions[sid].pc.Idle?
    requires forall p {:trigger s.world.players[p]} :: p in s.world.players ==> s.world.players[p].id == p
    ensures NamesInv(DoDisconnect(s, sid))
  {
    hide NamesInv, LoginInv, Saves, Depart, PcNamed, Anchored, DoDisconnect;
    AllAnchored(s);
    PcsNamed(s);
    SessionIsOk(s.sessions, s.world.players, s.owner, sid);
    DisconnectShape(s, sid);
    var name := s.sessions[sid].player;
    DepartKeeps(s.world, name);
    var s' := DoDisconnect(s, sid);
    if name == "" {
      ClosedIsNamed(s.created, s.disk);
      NamesUpdate(s, s', sid);
    } else {
      LeaverOnDisk(s, sid);
      forall n | n in s'.world.players ensures Anchored(s', n) {
        StillAnchored(s, s', sid, n);
      }
      LeavingIsNamed(s.created, s.disk, s.world.players[name]);
      NamesFrom(s');
    }
  }

  lemma ClosedIsNamed(created: multiset<string>, disk: map<string, PlayerState>)
    ensures PcNamed(Closed, created, disk)
  {
  }

  lemma LeavingIsNamed(created: multiset<string>, disk: map<string, PlayerState>, p: PlayerState)
    requires p.id in created
    ensures PcNamed(Leaving([p]), created, disk)
  {
  }

  lemma LeaverOnDisk(s: Server, sid: nat)
    requires sid in s.sessions && s.sessions[sid].pc.Idle? && Anchored(s, s.sessions[sid].player)
    requires s.sessions[sid].player in s.owner && s.owner[s.sessions[sid].player] == sid
    ensures s.sessions[sid].player in s.disk
  {
  }

  lemma StillAnchored(s: Server, s': Server, sid: nat, n: string)
    requires Anchored(s, n) && sid in s.sessions && s.sessions[sid].pc.Idle? && sid in s'.sessions
    requires s'.sessions == s.sessions[sid := s'.sessions[sid]] && s'.disk == s.disk
    requires n in s.owner ==> n in s'.owner && s'.owner[n] == s.owner[n]
    ensures Anchored(s', n)
  {
    NothingSaved(s.sessions[sid].pc, n);
  }
}
