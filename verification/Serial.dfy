/** Runs in which no command starts before the previous one, with all its saves, has finished: disk
    and memory agree, and no item is lost or doubled. */
module Serial {
  import opened Lists
  import opened WorldModel
  import opened Completions
  import opened Server
  import opened Invariants
  import opened Commits

  predicate AtRest(pc: Pc) {
    pc.Idle? || pc.Closed?
  }

  /** No thread but that of session `b` is in the middle of a command. */
  ghost predicate OnlyBusy(sessions: map<nat, Session>, b: nat) {
    forall sid {:trigger sessions[sid]} :: sid in sessions && sid != b ==> AtRest(sessions[sid].pc)
  }

  ghost predicate OneAtATime(s: Server) {
    exists b :: OnlyBusy(s.sessions, b)
  }

  /** A run in which at most one command is under way at any time. */
  ghost predicate CanRunSerially(s: Server, run: seq<Action>)
    decreases |run|
  {
    OneAtATime(s) && (run == [] || (Enabled(s, run[0]) && CanRunSerially(Step(s, run[0]), run[1..])))
  }

  lemma {:induction false} SerialRunsAreRuns(s: Server, run: seq<Action>)
    requires CanRunSerially(s, run)
    ensures CanRun(s, run)
    decreases |run|
  {
    hide Enabled, Step, OneAtATime;
    if run != [] {
      SerialRunsAreRuns(Step(s, run[0]), run[1..]);
    }
  }

  // ---- disk and memory -----------------------------------------------------------------------

  /** What the busy thread still has to save. */
  function PendingOf(sessions: map<nat, Session>, b: nat): seq<PlayerState> {
    if b in sessions then PendingSaves(sessions[b].pc) else []
  }

  function Stored(disk: map<string, PlayerState>, name: string, otherwise: PlayerState): PlayerState {
    if name in disk then disk[name] else otherwise
  }

  /** A kept state agrees with a player: it is the same, except that the room may be that of before a walk
      into a room with an empty id, which is not saved. */
  predicate Agrees(kept: PlayerState, p: PlayerState) {
    kept == p || kept.(room := "") == p
  }

  /** Once the pending saves are done, the file of every online player agrees with its present state. */
  ghost predicate WriteThrough(players: map<string, PlayerState>, disk: map<string, PlayerState>, pending: seq<PlayerState>) {
    forall p {:trigger players[p]} :: p in players ==> Agrees(Newest(pending, p, Stored(disk, p, players[p])), players[p])
  }

  /** A thread that is logging in holds what the file holds; one that is leaving has at most a room to save. */
  ghost predicate BusyOk(pc: Pc, players: map<string, PlayerState>, disk: map<string, PlayerState>) {
    && (pc.Found? ==> pc.name in disk && disk[pc.name] == pc.state)
    && (pc.Saving? ==> SavesOf(pc.saves, players))
    && (pc.Leaving? ==>
          && |pc.saves| == 1 && pc.saves[0].id in disk && Agrees(disk[pc.saves[0].id], pc.saves[0])
          && pc.saves[0].id !in players)
  }

  /** Once the pending saves are done, a character who is offline is stored as it was when it left. */
  ghost predicate LogoutKept(
    players: map<string, PlayerState>, disk: map<string, PlayerState>, logout: map<string, PlayerState>, pending: seq<PlayerState>)
  {
    forall n {:trigger logout[n]} :: n in logout && n !in players ==> n in disk && Newest(pending, n, disk[n]) == logout[n]
  }

  ghost predicate DiskInv(s: Server, b: nat) {
    && OnlyBusy(s.sessions, b)
    && WriteThrough(s.world.players, s.disk, PendingOf(s.sessions, b))
    && (b in s.sessions ==> BusyOk(s.sessions[b].pc, s.world.players, s.disk))
    && LogoutKept(s.world.players, s.disk, s.logout, PendingOf(s.sessions, b))
  }

  // ---- items ---------------------------------------------------------------------------------

  /** What a character carries: in memory if it is online, else on disk. */
  function Bag(players: map<string, PlayerState>, disk: map<string, PlayerState>, name: string): seq<string> {
    if name in players then players[name].inventory else if name in disk then disk[name].inventory else []
  }

  /** The item lists of the rooms hold exactly the items whose place they are, each once. */
  ghost predicate RoomsListed(rooms: map<string, Room>, place: map<string, Place>) {
    && (forall r {:trigger rooms[r]} :: r in rooms ==> NoDuplicates(rooms[r].items))
    && (forall r, i {:trigger i in rooms[r].items} :: r in rooms && i in rooms[r].items ==> i in place && place[i] == InRoom(r))
    && (forall i {:trigger place[i]} :: i in place && place[i].InRoom? ==>
          place[i].room in rooms && i in rooms[place[i].room].items)
  }

  /** The bag of `n` holds exactly the items whose place it is, each once. */
  ghost predicate BagOk(place: map<string, Place>, n: string, bag: seq<string>) {
    NoDuplicates(bag) && forall i {:trigger i in bag} {:trigger place[i]} :: i in bag <==> i in place && place[i] == Held(n)
  }

  ghost predicate BagsListed(players: map<string, PlayerState>, disk: map<string, PlayerState>, place: map<string, Place>) {
    forall n {:trigger Bag(players, disk, n)} :: BagOk(place, n, Bag(players, disk, n))
  }

  ghost predicate ItemsInv(s: Server) {
    RoomsListed(s.world.rooms, s.place) && BagsListed(s.world.players, s.disk, s.place)
  }

  /** Item `i` is at `where` in the actual state; consumed items are remembered by the record of the run. */
  ghost predicate At(s: Server, i: string, where: Place) {
    match where
    case InRoom(r) => r in s.world.rooms && i in s.world.rooms[r].items
    case Held(n) => i in Bag(s.world.players, s.disk, n)
    case Used => i in s.place && s.place[i] == Used
  }
}
