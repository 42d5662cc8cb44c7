/** Items along serial runs: never lost, never doubled, and consumed for good. */
module SerialItems {
  import opened Lists
  import opened WorldModel
  import opened Sections
  import opened WorldRules
  import opened Completions
  import opened Server
  import opened StepShapes
  import opened Invariants
  import opened Commits
  import opened StatesProof
  import opened LoginProof
  import opened Runs
  import opened Serial
  import opened SerialProof

  // ---- one list at a time --------------------------------------------------------------------

  lemma RoomLoses(rooms: map<string, Room>, rooms': map<string, Room>, place: map<string, Place>, here: string, i: string, to: Place)
    requires RoomsListed(rooms, place) && here in rooms && i in rooms[here].items && !to.InRoom?
    requires rooms'.Keys == rooms.Keys && rooms'[here].items == Without(rooms[here].items, i)
    requires forall r {:trigger rooms'[r]} :: r in rooms && r != here ==> rooms'[r].items == rooms[r].items
    ensures RoomsListed(rooms', place[i := to])
  {
    hide NoDuplicates, Without;
    WithoutMembers(rooms[here].items, i);
    WithoutKeepsDistinct(rooms[here].items, i);
    forall r, j | r in rooms' && j in rooms'[r].items ensures j in place[i := to] && place[i := to][j] == InRoom(r) {
      assert j in rooms[r].items;
      assert i in rooms[here].items;
    }
  }

  lemma RoomGains(rooms: map<string, Room>, rooms': map<string, Room>, place: map<string, Place>, here: string, i: string)
    requires RoomsListed(rooms, place) && here in rooms && i in place && !place[i].InRoom?
    requires rooms'.Keys == rooms.Keys && rooms'[here].items == rooms[here].items + [i]
    requires forall r {:trigger rooms'[r]} :: r in rooms && r != here ==> rooms'[r].items == rooms[r].items
    ensures RoomsListed(rooms', place[i := InRoom(here)])
  {
    hide NoDuplicates;
    assert i !in rooms[here].items;
    AppendKeepsDistinct(rooms[here].items, i);
  }

  lemma RoomsKeep(rooms: map<string, Room>, rooms': map<string, Room>, place: map<string, Place>)
    requires RoomsListed(rooms, place) && SameItems(rooms, rooms')
    ensures RoomsListed(rooms', place)
  {
    hide NoDuplicates;
  }

  lemma RoomsIgnore(rooms: map<string, Room>, place: map<string, Place>, i: string, to: Place)
    requires RoomsListed(rooms, place) && (i in place ==> !place[i].InRoom?) && !to.InRoom?
    ensures RoomsListed(rooms, place[i := to])
  {
    hide NoDuplicates;
  }

  lemma BagLoses(place: map<string, Place>, n: string, bag: seq<string>, i: string, to: Place)
    requires BagOk(place, n, bag) && i in bag && to != Held(n)
    ensures BagOk(place[i := to], n, Without(bag, i))
  {
    WithoutMembers(bag, i);
    WithoutKeepsDistinct(bag, i);
  }

  lemma BagGains(place: map<string, Place>, n: string, bag: seq<string>, i: string)
    requires BagOk(place, n, bag) && i !in bag
    ensures BagOk(place[i := Held(n)], n, bag + [i])
  {
    hide NoDuplicates;
    AppendKeepsDistinct(bag, i);
  }

  lemma BagIgnores(place: map<string, Place>, n: string, bag: seq<string>, i: string, to: Place)
    requires BagOk(place, n, bag) && (i in place ==> place[i] != Held(n)) && to != Held(n)
    ensures BagOk(place[i := to], n, bag)
  {
    hide NoDuplicates;
  }

  // ---- a transfer ----------------------------------------------------------------------------

  /** An item that is in a room or a bag moves: its place and one bag change. */
  lemma BagsMove(
    players: map<string, PlayerState>, disk: map<string, PlayerState>, place: map<string, Place>,
    pid: string, p': PlayerState, i: string, to: Place)
    requires BagsListed(players, disk, place) && pid in players && i in place
    requires place[i].Held? ==> place[i].name == pid
    requires to.Held? ==> to.name == pid
    requires BagOk(place[i := to], pid, p'.inventory)
    ensures BagsListed(players[pid := p'], disk, place[i := to])
  {
    hide BagOk;
    var players', place' := players[pid := p'], place[i := to];
    forall n ensures BagOk(place', n, Bag(players', disk, n)) {
      if n != pid {
        assert BagOk(place, n, Bag(players, disk, n));
        BagIgnores(place, n, Bag(players, disk, n), i, to);
      }
    }
  }

  lemma BagIsListed(players: map<string, PlayerState>, disk: map<string, PlayerState>, place: map<string, Place>, pid: string)
    requires BagsListed(players, disk, place) && pid in players
    ensures BagOk(place, pid, players[pid].inventory)
  {
    hide BagOk;
    assert BagOk(place, pid, Bag(players, disk, pid));
  }

  lemma HeldHere(place: map<string, Place>, n: string, bag: seq<string>, i: string)
    requires BagOk(place, n, bag)
    ensures i in bag <==> i in place && place[i] == Held(n)
  {
    hide NoDuplicates;
  }

  lemma InRoomHere(rooms: map<string, Room>, place: map<string, Place>, r: string, i: string)
    requires RoomsListed(rooms, place) && r in rooms && i in rooms[r].items
    ensures i in place && place[i] == InRoom(r)
  {
    hide NoDuplicates;
  }

  lemma BagsStay(
    players: map<string, PlayerState>, disk: map<string, PlayerState>, players': map<string, PlayerState>, disk': map<string, PlayerState>,
    place: map<string, Place>)
    requires BagsListed(players, disk, place)
    requires forall n :: Bag(players', disk', n) == Bag(players, disk, n)
    ensures BagsListed(players', disk', place)
  {
    hide BagOk;
    forall n ensures BagOk(place, n, Bag(players', disk', n)) {
      assert BagOk(place, n, Bag(players, disk, n));
    }
  }

  lemma TransferItems(
    rooms: map<string, Room>, rooms': map<string, Room>, players: map<string, PlayerState>, disk: map<string, PlayerState>,
    place: map<string, Place>, pid: string, p': PlayerState, t: Transfer)
    requires RoomsListed(rooms, place) && BagsListed(players, disk, place)
    requires pid in players && players[pid].room in rooms && rooms'.Keys == rooms.Keys
    requires Moves(rooms, rooms', players[pid].room, players[pid].inventory, p'.inventory, t)
    ensures RoomsListed(rooms', Moved(place, pid, players[pid].room, t))
    ensures BagsListed(players[pid := p'], disk, Moved(place, pid, players[pid].room, t))
  {
    hide RoomsListed, BagsListed, BagOk, Without;
    var here, bag := players[pid].room, players[pid].inventory;
    BagIsListed(players, disk, place, pid);
    match t {
      case Stay =>
        RoomsKeep(rooms, rooms', place);
        BagsStay(players, disk, players[pid := p'], disk, place);
      case PickedUp(i) =>
        InRoomHere(rooms, place, here, i);
        HeldHere(place, pid, bag, i);
        RoomLoses(rooms, rooms', place, here, i, Held(pid));
        BagGains(place, pid, bag, i);
        BagsMove(players, disk, place, pid, p', i, Held(pid));
      case PutDown(i) =>
        HeldHere(place, pid, bag, i);
        RoomGains(rooms, rooms', place, here, i);
        BagLoses(place, pid, bag, i, InRoom(here));
        BagsMove(players, disk, place, pid, p', i, InRoom(here));
      case Consumed(i) =>
        HeldHere(place, pid, bag, i);
        RoomsKeep(rooms, rooms', place);
        RoomsIgnore(rooms', place, i, Used);
        BagLoses(place, pid, bag, i, Used);
        BagsMove(players, disk, place, pid, p', i, Used);
    }
  }

  // ---- the steps -----------------------------------------------------------------------------

  lemma BehavesItems(base: World, s: Server, sid: nat, o: Outcome, event: GroupEvent)
    requires ItemsInv(s) && sid in s.sessions && s.sessions[sid].player in s.world.players
    requires Behaves(base, s.world, s.sessions[sid].player, s.sessions[sid].room, o)
    ensures ItemsInv(Commit(s, sid, o, event))
  {
    hide Behaves, Moves, RoomsListed, BagsListed, Moved, Commit, Recorded, After;
    var pid := s.sessions[sid].player;
    var p' := ChangedPlayer(base, s.world, pid, s.sessions[sid].room, o);
    CommitShape(s, sid, o, event);
    if o.world == s.world && o.transfer == Stay {
      StayMoves(s.place, pid, RoomOf(s.world, pid));
    } else {
      TransferItems(s.world.rooms, o.world.rooms, s.world.players, s.disk, s.place, pid, p', o.transfer);
    }
  }

  /** The player a section leaves behind, with what it moved. */
  lemma ChangedPlayer(base: World, w: World, pid: string, room: string, o: Outcome) returns (p': PlayerState)
    requires pid in w.players && Behaves(base, w, pid, room, o)
    ensures o.Outcome?
    ensures (o.world == w && o.transfer == Stay)
         || (&& o.world.players == w.players[pid := p'] && w.players[pid].room in w.rooms && o.world.rooms.Keys == w.rooms.Keys
             && Moves(w.rooms, o.world.rooms, w.players[pid].room, w.players[pid].inventory, p'.inventory, o.transfer))
  {
    hide MapOk, HpFalls, Deaths, Moves, StateOk;
    p' := w.players[pid];
    if !(o.world == w && o.transfer == Stay) {
      p' :| Change(base, w, o.world, pid, w.players[pid], p', o.follow, o.transfer);
    }
  }

  lemma StayMoves(place: map<string, Place>, pid: string, here: string)
    ensures Moved(place, pid, here, Stay) == place
  {
  }

  lemma QuietItems(base: World, s: Server, sid: nat, o: Outcome, event: GroupEvent, done: set<string>)
    requires ItemsInv(s) && sid in s.sessions
    requires GroupOnly(s.world, s.sessions[sid].room, o) || Completes(base, s.world, s.sessions[sid].room, o, done)
    ensures ItemsInv(Commit(s, sid, o, event))
  {
    hide Recorded, Flipped, RoomsListed, BagsListed, Moved, AllCleared;
    StayMoves(s.place, s.sessions[sid].player, RoomOf(s.world, s.sessions[sid].player));
    forall n ensures Bag(o.world.players, s.disk, n) == Bag(s.world.players, s.disk, n) {
      if Completes(base, s.world, s.sessions[sid].room, o, done) && n in s.world.players {
        assert Advances(s.world.players[n], Pass(o.world.players, o.saves).players[n], done);
      }
    }
    BagsStay(s.world.players, s.disk, o.world.players, s.disk, s.place);
  }

  lemma CreateItems(s: Server, sid: nat, args: seq<string>)
    requires ItemsInv(s) && sid in s.sessions
    ensures ItemsInv(DoCreate(s, sid, args))
  {
    hide RoomsListed, BagsListed, IsValidName, AlreadyDone;
    var s' := DoCreate(s, sid, args);
    forall n ensures Bag(s'.world.players, s'.disk, n) == Bag(s.world.players, s.disk, n) {
    }
    BagsStay(s.world.players, s.disk, s'.world.players, s'.disk, s.place);
  }

  lemma LoginItems(base: World, s: Server, sid: nat)
    requires Inv(base, s) && DiskInv(s, sid) && ItemsInv(s) && sid in s.sessions && s.sessions[sid].pc.Found?
    ensures ItemsInv(DoLogin(s, sid))
  {
    hide Inv, RoomsListed, BagsListed, DiskInv, InitQuests;
    LoginDisk(base, s, sid);
    var s' := DoLogin(s, sid);
    forall n ensures Bag(s'.world.players, s'.disk, n) == Bag(s.world.players, s.disk, n) {
    }
    BagsStay(s.world.players, s.disk, s'.world.players, s'.disk, s.place);
  }

  lemma SaveItems(s: Server, sid: nat)
    requires DiskInv(s, sid) && ItemsInv(s) && sid in s.sessions && HasSave(s.sessions[sid].pc)
    ensures ItemsInv(DoSave(s, sid))
  {
    hide RoomsListed, BagsListed, WriteThrough, LogoutKept, OnlyBusy, After;
    var s' := DoSave(s, sid);
    forall n ensures Bag(s'.world.players, s'.disk, n) == Bag(s.world.players, s.disk, n) {
    }
    BagsStay(s.world.players, s.disk, s'.world.players, s'.disk, s.place);
  }

  lemma DisconnectItems(base: World, s: Server, sid: nat)
    requires Inv(base, s) && DiskInv(s, sid) && ItemsInv(s) && sid in s.sessions && s.sessions[sid].pc.Idle?
    ensures ItemsInv(DoDisconnect(s, sid))
  {
    hide Inv, RoomsListed, BagsListed, DiskInv, Depart, DoDisconnect;
    DisconnectDisk(base, s, sid);
    DisconnectShape(s, sid);
    DepartKeeps(s.world, s.sessions[sid].player);
    var s' := DoDisconnect(s, sid);
    forall n ensures Bag(s'.world.players, s'.disk, n) == Bag(s.world.players, s.disk, n) {
    }
    BagsStay(s.world.players, s.disk, s'.world.players, s'.disk, s.place);
  }

  lemma HandleItems(base: World, s: Server, sid: nat, command: Command)
    requires Loaded(base) && Inv(base, s) && CanHandle(s, sid, command) && ItemsInv(s)
    ensures ItemsInv(DoHandle(s, sid, command))
  {
    hide WorldOk, StatesInv, LoginInv, NamesInv, FirstLoginInv, FlipInv, GroupsAgree, GroupLogInv, Run, Loaded, FairRoll,
         PlayersGood, Commit, Behaves, GroupOnly, ItemsInv;
    var session := s.sessions[sid];
    if session.player != "" {
      var o := Run(s.world, session.player, session.room, command);
      LiveIsReady(base, s, sid);
      if IsGroupCommand(command) {
        GroupRunOnly(s.world, session.player, session.room, command);
        QuietItems(base, s, sid, o, HandledEvent(s, sid, command), {});
      } else {
        RunBehaves(base, s.world, session, command);
        BehavesItems(base, s, sid, o, HandledEvent(s, sid, command));
      }
    }
  }

  lemma FollowUpItems(base: World, s: Server, sid: nat, questOrder: seq<string>, playerOrder: seq<string>)
    requires Loaded(base) && Inv(base, s) && CanFollowUp(s, sid, questOrder, playerOrder) && ItemsInv(s)
    ensures ItemsInv(DoFollowUp(s, sid, questOrder, playerOrder))
  {
    hide WorldOk, StatesInv, LoginInv, NamesInv, FirstLoginInv, FlipInv, GroupsAgree, GroupLogInv, Tame, Loaded,
         PlayersGood, Commit, IsOrderOf, OnItemTaken, OnNpcDefeated, Completes, ItemsInv;
    var session := s.sessions[sid];
    if session.pc.follow != Nothing {
      assert session.player != "" by { SessionIsOk(s.sessions, s.world.players, s.owner, sid); }
      LiveIsReady(base, s, sid);
      FollowUpIsTame(base, s, sid, questOrder, playerOrder);
      QuietItems(base, s, sid, FollowUpOutcome(s, sid, questOrder, playerOrder), NoEvent, FollowUpQuests(s, sid));
    }
  }

  /** Steps that read or write character files happen in the busy thread, or come to rest at once. */
  lemma StepItems(base: World, s: Server, a: Action, b: nat, c: nat)
    requires Loaded(base) && Inv(base, s) && Enabled(s, a) && DiskInv(s, b) && ItemsInv(s)
    requires OnlyBusy(Step(s, a).sessions, c)
    ensures ItemsInv(Step(s, a))
  {
    hide Inv, Loaded, DiskInv, ItemsInv, DoCreate, DoConnect, DoReadFile, DoLogin, DoHandle, DoSave, DoFollowUp, DoDisconnect,
         FairRoll, OnlyBusy;
    if a.Login? || a.Save? || a.Disconnect? {
      StepperDisk(base, s, a, b, c);
    }
    match a {
      case Accept(sid) => SameItemsInv(s, Step(s, a));
      case Create(sid, args) => CreateItems(s, sid, args);
      case Connect(sid, args) => ConnectItems(s, sid, args);
      case ReadFile(sid) => ReadFileItems(s, sid);
      case Login(sid) => LoginItems(base, s, sid);
      case Handle(sid, command) => HandleItems(base, s, sid, command);
      case Save(sid) => SaveItems(s, sid);
      case FollowUp(sid, qs, ps) => FollowUpItems(base, s, sid, qs, ps);
      case Disconnect(sid) => if s.sessions[sid].player == "" { CloseItems(s, sid); } else { DisconnectItems(base, s, sid); }
    }
  }

  lemma SameItemsInv(s: Server, s': Server)
    requires ItemsInv(s) && s'.world.rooms == s.world.rooms && s'.world.players == s.world.players
    requires s'.disk == s.disk && s'.place == s.place
    ensures ItemsInv(s')
  {
    hide RoomsListed, BagsListed;
  }

  lemma ConnectItems(s: Server, sid: nat, args: seq<string>)
    requires ItemsInv(s) && sid in s.sessions
    ensures ItemsInv(DoConnect(s, sid, args))
  {
    hide ItemsInv, IsValidName;
    SameItemsInv(s, DoConnect(s, sid, args));
  }

  lemma ReadFileItems(s: Server, sid: nat)
    requires ItemsInv(s) && sid in s.sessions && s.sessions[sid].pc.Seeking?
    ensures ItemsInv(DoReadFile(s, sid))
  {
    hide ItemsInv;
    SameItemsInv(s, DoReadFile(s, sid));
  }

  lemma CloseItems(s: Server, sid: nat)
    requires ItemsInv(s) && sid in s.sessions && s.sessions[sid].player == ""
    ensures ItemsInv(DoDisconnect(s, sid))
  {
    hide ItemsInv;
    SameItemsInv(s, DoDisconnect(s, sid));
  }

  /** A thread that reads or writes character files is the only busy one. */
  lemma StepperDisk(base: World, s: Server, a: Action, b: nat, c: nat)
    requires Inv(base, s) && Enabled(s, a) && DiskInv(s, b) && OnlyBusy(Step(s, a).sessions, c)
    requires a.Login? || a.Save? || a.Disconnect?
    ensures (a.Disconnect? && s.sessions[a.sid].player == "") || DiskInv(s, a.sid)
  {
    hide Inv, DiskInv, OnlyBusy, DoLogin, DoSave, DoDisconnect, Depart;
    DisconnectShape(s, a.sid);
    StepTouchesOneSession(s, a);
    OthersRest(s, b, a.sid);
    if a.sid != b {
      assert a.Disconnect?;
      if s.sessions[a.sid].player != "" {
        LiveIsReady(base, s, a.sid);
        DepartKeeps(s.world, s.sessions[a.sid].player);
        StepperIsBusy(s, Step(s, a), a.sid, c);
        Rebase(s, b, a.sid);
      }
    }
  }
}
