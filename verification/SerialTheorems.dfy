/** What every serial run promises about the character files and the items. */
module SerialTheorems {
  import opened Lists
  import opened WorldModel
  import opened Sections
  import opened WorldRules
  import opened Completions
  import opened Server
  import opened StepShapes
  import opened Invariants
  import opened Commits
  import opened LoginProof
  import opened Runs
  import opened Serial
  import opened SerialProof
  import opened SerialItems

  // ---- every run -----------------------------------------------------------------------------

  ghost predicate SerialInv(s: Server) {
    (exists b :: DiskInv(s, b)) && ItemsInv(s)
  }

  lemma SerialStart(base: World)
    requires Loaded(base)
    ensures SerialInv(Start(base))
  {
    hide Assumed, Fresh, ExitsLead, NpcsKnown, QuestsKnown, UnlocksKnown, NoDuplicates;
    var s := Start(base);
    assert DiskInv(s, 0);
    StartPlaces(base);
    forall n ensures BagOk(s.place, n, Bag(s.world.players, s.disk, n)) {
      StartBag(base, n);
    }
  }

  lemma StartPlaces(base: World)
    requires ItemsKnown(base) && ItemsUnique(base)
    ensures RoomsListed(base.rooms, PlacesAtStart(base))
  {
    hide NoDuplicates;
    forall r, i | r in base.rooms && i in base.rooms[r].items
      ensures i in PlacesAtStart(base) && PlacesAtStart(base)[i] == InRoom(r)
    {
      assert PlacedIn(base, i, r);
      assert PlacedIn(base, i, RoomHolding(base, i));
    }
  }

  lemma StartBag(base: World, n: string)
    requires Fresh(base)
    ensures BagOk(PlacesAtStart(base), n, Bag(base.players, map[], n))
  {
  }

  lemma {:induction false} SerialExec(base: World, s: Server, run: seq<Action>)
    requires Loaded(base) && Inv(base, s) && SerialInv(s) && CanRunSerially(s, run)
    ensures CanRun(s, run) && Inv(base, Exec(s, run)) && SerialInv(Exec(s, run))
    ensures forall i :: i in s.place && s.place[i] == Used ==> i in Exec(s, run).place && Exec(s, run).place[i] == Used
    decreases |run|
  {
    hide Inv, Loaded, Step, Enabled, DiskInv, ItemsInv, OnlyBusy;
    if run != [] {
      var a, next := run[0], Step(s, run[0]);
      var b :| DiskInv(s, b);
      assert OneAtATime(next);
      var c :| OnlyBusy(next.sessions, c);
      StepKeeps(base, s, a);
      StepDisk(base, s, a, b, c);
      StepItems(base, s, a, b, c);
      StepKeepsUsed(base, s, a);
      SerialExec(base, next, run[1..]);
    }
  }

  /** An item once consumed stays consumed: what moves is always in a room or a bag. */
  lemma StepKeepsUsed(base: World, s: Server, a: Action)
    requires Loaded(base) && Inv(base, s) && Enabled(s, a) && ItemsInv(s)
    ensures forall i :: i in s.place && s.place[i] == Used ==> i in Step(s, a).place && Step(s, a).place[i] == Used
  {
    hide Inv, Loaded, ItemsInv, Commit, FairRoll, IsOrderOf, OnItemTaken, OnNpcDefeated, Run, Depart, InitQuests, IsValidName;
    match a {
      case Handle(sid, command) => HandleKeepsUsed(base, s, sid, command);
      case FollowUp(sid, qs, ps) => FollowUpKeepsUsed(base, s, sid, qs, ps);
      case _ =>
    }
  }

  lemma TransferKeepsUsed(base: World, s: Server, sid: nat, o: Outcome, event: GroupEvent)
    requires ItemsInv(s) && sid in s.sessions && s.sessions[sid].player in s.world.players
    requires Behaves(base, s.world, s.sessions[sid].player, s.sessions[sid].room, o)
    ensures forall i :: i in s.place && s.place[i] == Used ==>
              i in Commit(s, sid, o, event).place && Commit(s, sid, o, event).place[i] == Used
  {
    hide Behaves, Recorded, RoomsListed, BagsListed, BagOk, Without, Commit, After;
    var pid := s.sessions[sid].player;
    var p' := ChangedPlayer(base, s.world, pid, s.sessions[sid].room, o);
    CommitShape(s, sid, o, event);
    if o.transfer != Stay {
      var here, bag := s.world.players[pid].room, s.world.players[pid].inventory;
      BagIsListed(s.world.players, s.disk, s.place, pid);
      match o.transfer {
        case PickedUp(i) => InRoomHere(s.world.rooms, s.place, here, i);
        case PutDown(i) => HeldHere(s.place, pid, bag, i);
        case Consumed(i) => HeldHere(s.place, pid, bag, i);
      }
    }
  }

  lemma QuietKeepsUsed(s: Server, sid: nat, o: Outcome, event: GroupEvent)
    requires sid in s.sessions && o.Outcome? && o.transfer == Stay
    ensures Commit(s, sid, o, event).place == s.place
  {
  }

  lemma HandleKeepsUsed(base: World, s: Server, sid: nat, command: Command)
    requires Loaded(base) && Inv(base, s) && CanHandle(s, sid, command) && ItemsInv(s)
    ensures forall i :: i in s.place && s.place[i] == Used ==>
              i in DoHandle(s, sid, command).place && DoHandle(s, sid, command).place[i] == Used
  {
    hide WorldOk, StatesInv, LoginInv, NamesInv, FirstLoginInv, FlipInv, GroupsAgree, GroupLogInv, Run, Loaded, FairRoll,
         PlayersGood, Commit, Behaves, ItemsInv;
    var session := s.sessions[sid];
    if session.player != "" {
      var o := Run(s.world, session.player, session.room, command);
      LiveIsReady(base, s, sid);
      if IsGroupCommand(command) {
        GroupRunOnly(s.world, session.player, session.room, command);
        QuietKeepsUsed(s, sid, o, HandledEvent(s, sid, command));
      } else {
        RunBehaves(base, s.world, session, command);
        TransferKeepsUsed(base, s, sid, o, HandledEvent(s, sid, command));
      }
    }
  }

  lemma FollowUpKeepsUsed(base: World, s: Server, sid: nat, questOrder: seq<string>, playerOrder: seq<string>)
    requires Loaded(base) && Inv(base, s) && CanFollowUp(s, sid, questOrder, playerOrder)
    ensures DoFollowUp(s, sid, questOrder, playerOrder).place == s.place
  {
    hide WorldOk, StatesInv, LoginInv, NamesInv, FirstLoginInv, FlipInv, GroupsAgree, GroupLogInv, Tame, Loaded,
         PlayersGood, Commit, IsOrderOf, OnItemTaken, OnNpcDefeated, Progress, AllCleared;
    var session := s.sessions[sid];
    if session.pc.follow != Nothing {
      assert session.player != "" by { SessionIsOk(s.sessions, s.world.players, s.owner, sid); }
      LiveIsReady(base, s, sid);
      FollowUpIsTame(base, s, sid, questOrder, playerOrder);
      QuietKeepsUsed(s, sid, FollowUpOutcome(s, sid, questOrder, playerOrder), NoEvent);
    }
  }

  lemma SerialRun(base: World, run: seq<Action>)
    requires Loaded(base) && CanRunSerially(Start(base), run)
    ensures CanRun(Start(base), run) && Inv(base, Exec(Start(base), run)) && SerialInv(Exec(Start(base), run))
  {
    hide Inv, Loaded, Start, CanRunSerially, CanRun, Exec, SerialInv;
    StartInv(base);
    SerialStart(base);
    SerialExec(base, Start(base), run);
  }

  // ---- the files -----------------------------------------------------------------------------

  ghost predicate AllAtRest(s: Server) {
    forall sid {:trigger s.sessions[sid]} :: sid in s.sessions ==> AtRest(s.sessions[sid].pc)
  }

  /** After every complete command the file of each online player holds its state in memory; only the room
      can differ, and only for a player who stands in a room with an empty id. */
  lemma FilesMatchMemory(base: World, run: seq<Action>, p: string)
    requires Loaded(base) && CanRunSerially(Start(base), run)
    ensures
      CanRun(Start(base), run) &&
      var s := Exec(Start(base), run);
      AllAtRest(s) && p in s.world.players ==>
        && p in s.disk && s.disk[p] == s.world.players[p].(room := s.disk[p].room)
        && (s.world.players[p].room != "" ==> s.disk[p] == s.world.players[p])
  {
    hide Loaded, Start, CanRunSerially, CanRun, Exec, WorldOk, StatesInv, LoginInv, NamesInv, FirstLoginInv, FlipInv, GroupsAgree,
         GroupLogInv, ItemsInv, LogoutKept, Saves;
    SerialRun(base, run);
    var s := Exec(Start(base), run);
    if AllAtRest(s) && p in s.world.players {
      var b :| DiskInv(s, b);
      assert PendingOf(s.sessions, b) == [];
      assert Agrees(Newest([], p, Stored(s.disk, p, s.world.players[p])), s.world.players[p]);
      AllAnchored(s);
      assert Anchored(s, p);
    }
  }

  /** The save of the disconnect handler writes what the file already holds, but for the room of a player
      who stood in a room with an empty id. */
  lemma FinalSaveChangesNothing(base: World, run: seq<Action>, sid: nat)
    requires Loaded(base) && CanRunSerially(Start(base), run)
    ensures
      CanRun(Start(base), run) &&
      var s := Exec(Start(base), run);
      sid in s.sessions && s.sessions[sid].pc.Leaving? && HasSave(s.sessions[sid].pc) ==>
        var p := s.sessions[sid].pc.saves[0];
        && p.id in s.disk && Step(s, Save(sid)).disk == s.disk[p.id := s.disk[p.id].(room := p.room)]
        && (p.room != "" ==> Step(s, Save(sid)).disk == s.disk)
  {
    hide Loaded, Start, CanRunSerially, CanRun, Exec, Inv, ItemsInv, DiskInv, DoSave;
    SerialRun(base, run);
    var s := Exec(Start(base), run);
    if sid in s.sessions && s.sessions[sid].pc.Leaving? && HasSave(s.sessions[sid].pc) {
      var b :| DiskInv(s, b);
      OthersRest(s, b, sid);
      SaveDisk(s, sid);
    }
  }

  /** A character who left is stored as it was when it left - once the final save is done, if it left a room
      with an empty id - and a later CONNECT brings exactly that state back. */
  lemma ConnectRestoresLogout(base: World, run: seq<Action>, sid: nat, name: string)
    requires Loaded(base) && CanRunSerially(Start(base), run)
    ensures
      CanRun(Start(base), run) &&
      var s := Exec(Start(base), run);
      name in s.logout && name !in s.world.players ==>
        && name in s.disk && (AllAtRest(s) || s.logout[name].room != "" ==> s.disk[name] == s.logout[name])
        && (sid in s.sessions && s.sessions[sid].pc.Found? && s.sessions[sid].pc.name == name ==>
              name in Step(s, Login(sid)).world.players && Step(s, Login(sid)).world.players[name] == s.logout[name])
  {
    hide Loaded, Start, CanRunSerially, CanRun, Exec, Inv, ItemsInv, WriteThrough, LogoutKept, BusyOk, OnlyBusy, DoLogin;
    SerialRun(base, run);
    var s := Exec(Start(base), run);
    var b :| DiskInv(s, b);
    if name in s.logout && name !in s.world.players {
      OfflineKept(s, b, name);
      if sid in s.sessions && s.sessions[sid].pc.Found? && s.sessions[sid].pc.name == name {
        OthersRest(s, b, sid);
        LoginDisk(base, s, sid);
        LoggedIn(s, sid);
      }
    }
  }

  lemma OfflineKept(s: Server, b: nat, name: string)
    requires DiskInv(s, b) && name in s.logout && name !in s.world.players
    ensures name in s.disk && (AllAtRest(s) || s.logout[name].room != "" ==> s.disk[name] == s.logout[name])
  {
    hide WriteThrough;
    var pending := PendingOf(s.sessions, b);
    assert Newest(pending, name, s.disk[name]) == s.logout[name];
    if forall i :: 0 <= i < |pending| ==> pending[i].id != name {
      NewestElsewhere(pending, name, s.disk[name]);
    } else {
      NewestAppend([], pending[0], name, s.disk[name]);
      assert pending == [] + [pending[0]];
    }
  }

  lemma LoggedIn(s: Server, sid: nat)
    requires sid in s.sessions && s.sessions[sid].pc.Found? && s.sessions[sid].pc.name !in s.world.players
    ensures s.sessions[sid].pc.name in DoLogin(s, sid).world.players
  {
    hide InitQuests;
  }

  // ---- the items -----------------------------------------------------------------------------

  /** Items the loader did not place are nowhere; an item it placed is in exactly one place: one room,
      the inventory of one online player, the file of one offline character, or used up. */
  lemma ItemsAreConserved(base: World, run: seq<Action>, i: string, r: string, p: Place, p': Place)
    requires Loaded(base) && CanRunSerially(Start(base), run)
    ensures
      CanRun(Start(base), run) &&
      var s := Exec(Start(base), run);
      && (PlacedIn(base, i, r) ==> exists w :: At(s, i, w))
      && (At(s, i, p) && At(s, i, p') ==> p == p')
  {
    hide Loaded, Start, CanRunSerially, CanRun, Exec, Inv, DiskInv, NoDuplicates;
    SerialRun(base, run);
    var s := Exec(Start(base), run);
    AtIsPlace(s, i, p);
    AtIsPlace(s, i, p');
    if PlacedIn(base, i, r) {
      PlacedForever(base, Start(base), run, i, r);
      AtIsPlace(s, i, s.place[i]);
    }
  }

  lemma AtIsPlace(s: Server, i: string, p: Place)
    requires ItemsInv(s)
    ensures At(s, i, p) <==> i in s.place && s.place[i] == p
  {
    hide NoDuplicates, Bag;
    if p.Held? {
      assert BagOk(s.place, p.name, Bag(s.world.players, s.disk, p.name));
      HeldHere(s.place, p.name, Bag(s.world.players, s.disk, p.name), i);
    }
  }

  lemma PlacedForever(base: World, start: Server, run: seq<Action>, i: string, r: string)
    requires Loaded(base) && start == Start(base) && CanRunSerially(start, run) && PlacedIn(base, i, r)
    ensures CanRun(start, run) && i in Exec(start, run).place
  {
    hide Exec, CanRun, CanRunSerially, Start, Inv, SerialInv, ItemsUnique, Assumed, Fresh, ExitsLead, NpcsKnown, QuestsKnown, UnlocksKnown;
    SerialRunsAreRuns(start, run);
    StartKnows(base, i, r);
    PlacesOnlyGrow(start, run);
  }

  lemma StartKnows(base: World, i: string, r: string)
    requires Loaded(base) && PlacedIn(base, i, r)
    ensures i in Start(base).place
  {
    hide ItemsUnique, Assumed, Fresh, ExitsLead, NpcsKnown, QuestsKnown, UnlocksKnown;
  }

  lemma {:induction false} PlacesOnlyGrow(s: Server, run: seq<Action>)
    requires CanRun(s, run)
    ensures s.place.Keys <= Exec(s, run).place.Keys
    decreases |run|
  {
    hide Step, Enabled;
    if run != [] {
      StepGrowsPlaces(s, run[0]);
      PlacesOnlyGrow(Step(s, run[0]), run[1..]);
    }
  }

  lemma StepGrowsPlaces(s: Server, a: Action)
    requires Enabled(s, a)
    ensures s.place.Keys <= Step(s, a).place.Keys
  {
    hide FairRoll, IsOrderOf, OnItemTaken, OnNpcDefeated, Run, Depart, InitQuests, IsValidName, Commit;
    match a {
      case Handle(sid, command) =>
        CommitGrowsPlaces(s, sid, Run(s.world, s.sessions[sid].player, s.sessions[sid].room, command), HandledEvent(s, sid, command));
      case FollowUp(sid, qs, ps) =>
        if s.sessions[sid].pc.follow != Nothing {
          CommitGrowsPlaces(s, sid, FollowUpOutcome(s, sid, qs, ps), NoEvent);
        }
      case _ =>
    }
  }

  lemma CommitGrowsPlaces(s: Server, sid: nat, o: Outcome, event: GroupEvent)
    requires sid in s.sessions
    ensures s.place.Keys <= Commit(s, sid, o, event).place.Keys
  {
    hide Flipped, Recorded, After;
  }

  /** No inventory and no room lists an item twice. */
  lemma ItemsAreListedOnce(base: World, run: seq<Action>, n: string, r: string)
    requires Loaded(base) && CanRunSerially(Start(base), run)
    ensures
      CanRun(Start(base), run) &&
      var s := Exec(Start(base), run);
      && NoDuplicates(Bag(s.world.players, s.disk, n))
      && (r in s.world.rooms ==> NoDuplicates(s.world.rooms[r].items))
  {
    hide Loaded, Start, CanRunSerially, CanRun, Exec, Inv, DiskInv, NoDuplicates;
    SerialRun(base, run);
    var s := Exec(Start(base), run);
    assert BagOk(s.place, n, Bag(s.world.players, s.disk, n));
  }

  /** An item consumed at some point of a serial run is consumed at every later point. */
  lemma ConsumedForGood(base: World, run: seq<Action>, later: seq<Action>, i: string)
    requires Loaded(base) && CanRunSerially(Start(base), run) && CanRun(Start(base), run)
    requires CanRunSerially(Exec(Start(base), run), later) && At(Exec(Start(base), run), i, Used)
    ensures
      CanRun(Exec(Start(base), run), later) &&
      var s := Exec(Exec(Start(base), run), later);
      At(s, i, Used) && (forall r :: !At(s, i, InRoom(r))) && (forall n :: !At(s, i, Held(n)))
  {
    hide Loaded, Start, CanRunSerially, CanRun, Exec, Inv, SerialInv;
    SerialRun(base, run);
    SerialExec(base, Exec(Start(base), run), later);
    var s := Exec(Exec(Start(base), run), later);
    assert ItemsInv(s) by { SerialItemsInv(s); }
    assert At(s, i, Used);
    forall r ensures !At(s, i, InRoom(r)) { AtIsPlace(s, i, InRoom(r)); }
    forall n ensures !At(s, i, Held(n)) { AtIsPlace(s, i, Held(n)); }
  }

  lemma SerialItemsInv(s: Server)
    requires SerialInv(s)
    ensures ItemsInv(s)
  {
    hide ItemsInv, DiskInv;
  }
}
