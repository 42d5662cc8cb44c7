/** The server as a step machine: one thread per session, every critical section of the world mutex,
    every character-file read and every character-file save is one step, and steps of different
    threads interleave freely. */
module Server {
  import opened Tokens
  import opened Lists
  import opened WorldModel
  import opened Sections

  /** Where a session's thread stands between two steps. */
  datatype Pc =
    | Idle                                            // waiting for a line
    | Seeking(name: string)                           // CONNECT: the name was seen to be offline
    | Found(name: string, state: PlayerState)         // CONNECT: the character file was read
    | Saving(saves: seq<PlayerState>, follow: Follow) // after a critical section: saves, then maybe another section
    | Leaving(saves: seq<PlayerState>)                // disconnect: out of the world, final save to do
    | Closed

  datatype Session = Session(player: string, room: string, pc: Pc)

  datatype Place = InRoom(room: string) | Held(name: string) | Used

  /** What one section means for invites and memberships. */
  datatype GroupEvent =
    | NoEvent
    | Founding(player: string, group: string)
    | Issuing(inviter: string, player: string, group: string)
    | Accepting(player: string, group: string)

  /** Everything that ever happened to invites and memberships, per (player, group): invites issued, those
      of them issued by someone then in the group, invites accepted, groups founded, memberships begun. */
  datatype GroupLog = GroupLog(
    issued: multiset<(string, string)>, byMembers: multiset<(string, string)>, accepted: multiset<(string, string)>,
    founded: multiset<(string, string)>, entered: multiset<(string, string)>)

  /** The shared world, the sessions and the character files, and a record of the run so far. */
  datatype Server = Server(
    world: World,
    sessions: map<nat, Session>,
    disk: map<string, PlayerState>,
    threw: bool,                         // a lookup failed
    owner: map<string, nat>,             // which session logged each online player in
    created: multiset<string>,           // successful creations per name
    firstLogin: set<string>,             // online players still in the login that created them
    flips: multiset<(nat, string)>,      // quest completions per (login, quest)
    groupLog: GroupLog,
    place: map<string, Place>,           // where each item went
    logout: map<string, PlayerState>)    // each character's state when it last left

  datatype Command =
    | MoveTo(args: seq<string>)
    | TakeItem(args: seq<string>)
    | DropItem(args: seq<string>)
    | UseItem(args: seq<string>)
    | AttackNpc(args: seq<string>, roll: Roll)
    | TalkTo(args: seq<string>)
    | Ask
    | CreateGroup(args: seq<string>)
    | Invite(args: seq<string>)
    | AcceptInvite(args: seq<string>)
    | QuitGroup

  datatype Action =
    | Accept(sid: nat)
    | Create(sid: nat, args: seq<string>)
    | Connect(sid: nat, args: seq<string>)
    | ReadFile(sid: nat)
    | Login(sid: nat)
    | Handle(sid: nat, command: Command)
    | Save(sid: nat)
    | FollowUp(sid: nat, questOrder: seq<string>, playerOrder: seq<string>)
    | Disconnect(sid: nat)

  /** The critical section of a command. */
  function Run(w: World, pid: string, room: string, command: Command): Outcome {
    match command
    case MoveTo(args) => Move(w, pid, room, args)
    case TakeItem(args) => Take(w, pid, room, args)
    case DropItem(args) => Drop(w, pid, room, args)
    case UseItem(args) => Use(w, pid, room, args)
    case AttackNpc(args, roll) => Attack(w, pid, room, args, roll)
    case TalkTo(args) => Talk(w, pid, room, args)
    case Ask => Query(w, pid, room)
    case CreateGroup(args) => GroupCreate(w, pid, room, args)
    case Invite(args) => GroupInvite(w, pid, room, args)
    case AcceptInvite(args) => GroupAccept(w, pid, room, args)
    case QuitGroup => GroupLeave(w, pid, room)
  }

  // ---- the record of the run -----------------------------------------------------------------

  /** The (login, quest) pairs whose status goes from in progress to completed. */
  function Flipped(owner: map<string, nat>, before: map<string, PlayerState>, after: map<string, PlayerState>): set<(nat, string)> {
    set p, q | p in before && p in after && p in owner && q in before[p].quests
               && IsOpen(before[p], q) && q in after[p].quests && after[p].quests[q] == COMPLETED :: (owner[p], q)
  }

  /** The memberships that begin between two states of `player_group`. */
  function Joined(before: map<string, string>, after: map<string, string>): set<(string, string)> {
    set p | p in after && after[p] != "" && GroupOf(before, p) != after[p] :: (p, after[p])
  }

  /** What a section means for invites and memberships, as its command and its reply tell. */
  function EventOf(w: World, pid: string, command: Command, o: Outcome): GroupEvent {
    if o.Threw? || o.reply != Ok then NoEvent
    else match command
      case CreateGroup(args) => Founding(pid, if |args| > 1 then args[1] else pid)
      case Invite(args) => if |args| > 1 then Issuing(pid, args[1], GroupOf(w.playerGroup, pid)) else NoEvent
      case AcceptInvite(args) => if |args| > 1 then Accepting(pid, args[1]) else NoEvent
      case _ => NoEvent
  }

  /** The event goes to its own list; memberships that begin are entered as they are seen. */
  function Recorded(log: GroupLog, w: World, w': World, event: GroupEvent): GroupLog {
    var seen := log.(entered := log.entered + multiset(Joined(w.playerGroup, w'.playerGroup)));
    match event
    case NoEvent => seen
    case Founding(p, g) => seen.(founded := log.founded + multiset{(p, g)})
    case Issuing(inviter, p, g) =>
      seen.(issued := log.issued + multiset{(p, g)},
            byMembers := if inviter in MembersOf(w.groups, g) then log.byMembers + multiset{(p, g)} else log.byMembers)
    case Accepting(p, g) => seen.(accepted := log.accepted + multiset{(p, g)})
  }

  function Moved(place: map<string, Place>, pid: string, here: string, t: Transfer): map<string, Place> {
    match t
    case Stay => place
    case PickedUp(i) => place[i := Held(pid)]
    case PutDown(i) => place[i := InRoom(here)]
    case Consumed(i) => place[i := Used]
  }

  // ---- steps ---------------------------------------------------------------------------------

  function After(saves: seq<PlayerState>, follow: Follow): Pc {
    if saves == [] && follow == Nothing then Idle else Saving(saves, follow)
  }

  function SetSession(s: Server, sid: nat, session: Session): Server {
    s.(sessions := s.sessions[sid := session])
  }

  function SetPc(s: Server, sid: nat, pc: Pc): Server
    requires sid in s.sessions
  {
    SetSession(s, sid, s.sessions[sid].(pc := pc))
  }

  function RoomOf(w: World, pid: string): string {
    if pid in w.players then w.players[pid].room else ""
  }

  /** The effect of a critical section entered by session `sid`. */
  function Commit(s: Server, sid: nat, o: Outcome, event: GroupEvent): Server
    requires sid in s.sessions
  {
    match o
    case Threw => s.(threw := true)
    case Outcome(w, room, _, saves, follow, transfer) =>
      var session := s.sessions[sid];
      s.(world := w,
         sessions := s.sessions[sid := session.(room := room, pc := After(saves, follow))],
         flips := s.flips + multiset(Flipped(s.owner, s.world.players, w.players)),
         groupLog := Recorded(s.groupLog, s.world, w, event),
         place := Moved(s.place, session.player, RoomOf(s.world, session.player), transfer))
  }

  function DoCreate(s: Server, sid: nat, args: seq<string>): Server
    requires sid in s.sessions
  {
    if s.sessions[sid].player != "" || args == [] || !IsValidName(args[0]) then s
    else if args[0] in s.world.players || args[0] in s.disk then s
    else
      var name := args[0];
      var w := Reserve(s.world, name, if |args| > 1 then args[1] else "", JoinFrom(args, 2));
      s.(world := w,
         sessions := s.sessions[sid := Session(name, START_ROOM, Saving([w.players[name]], Nothing))],
         owner := s.owner[name := sid],
         created := s.created + multiset{name},
         firstLogin := s.firstLogin + {name})
  }

  function DoConnect(s: Server, sid: nat, args: seq<string>): Server
    requires sid in s.sessions
  {
    if s.sessions[sid].player != "" || args == [] || !IsValidName(args[0]) || args[0] in s.world.players then s
    else SetPc(s, sid, Seeking(args[0]))
  }

  function DoReadFile(s: Server, sid: nat): Server
    requires sid in s.sessions && s.sessions[sid].pc.Seeking?
  {
    var name := s.sessions[sid].pc.name;
    SetPc(s, sid, if name in s.disk then Found(name, s.disk[name]) else Idle)
  }

  function DoLogin(s: Server, sid: nat): Server
    requires sid in s.sessions && s.sessions[sid].pc.Found?
  {
    var name, loaded := s.sessions[sid].pc.name, s.sessions[sid].pc.state;
    if name in s.world.players then SetPc(s, sid, Idle)
    else
      s.(world := Enter(s.world, name, loaded),
         sessions := s.sessions[sid := Session(name, loaded.room, Idle)],
         owner := s.owner[name := sid])
  }

  function HandledEvent(s: Server, sid: nat, command: Command): GroupEvent
    requires sid in s.sessions
  {
    var session := s.sessions[sid];
    EventOf(s.world, session.player, command, Run(s.world, session.player, session.room, command))
  }

  function DoHandle(s: Server, sid: nat, command: Command): Server
    requires sid in s.sessions
  {
    var session := s.sessions[sid];
    if session.player == "" then s
    else Commit(s, sid, Run(s.world, session.player, session.room, command), HandledEvent(s, sid, command))
  }

  predicate HasSave(pc: Pc) {
    (pc.Saving? || pc.Leaving?) && pc.saves != []
  }

  function DoSave(s: Server, sid: nat): Server
    requires sid in s.sessions && HasSave(s.sessions[sid].pc)
  {
    var pc := s.sessions[sid].pc;
    var rest := pc.saves[1..];
    SetPc(s.(disk := s.disk[pc.saves[0].id := pc.saves[0]]), sid,
          if pc.Saving? then After(rest, pc.follow) else if rest == [] then Closed else Leaving(rest))
  }

  function DoFollowUp(s: Server, sid: nat, questOrder: seq<string>, playerOrder: seq<string>): Server
    requires sid in s.sessions && s.sessions[sid].pc.Saving?
  {
    var session := s.sessions[sid];
    match session.pc.follow
    case Nothing => s
    case Taken(item) => Commit(s, sid, OnItemTaken(s.world, session.player, session.room, item, questOrder), NoEvent)
    case Defeated(npc) => Commit(s, sid, OnNpcDefeated(s.world, session.room, npc, questOrder, playerOrder), NoEvent)
  }

  function DoDisconnect(s: Server, sid: nat): Server
    requires sid in s.sessions
  {
    var name := s.sessions[sid].player;
    if name == "" then SetPc(s, sid, Closed)
    else
      var left := s.(world := Depart(s.world, name), owner := s.owner - {name}, firstLogin := s.firstLogin - {name});
      if name !in s.world.players then SetPc(left, sid, Closed)
      else SetPc(left.(logout := s.logout[name := s.world.players[name]]), sid, Leaving([s.world.players[name]]))
  }

  /** The dice an attack may show. */
  predicate FairRoll(w: World, session: Session, command: Command) {
    command.AttackNpc? && command.args != [] && session.player in w.players && w.players[session.player].room in w.rooms ==>
      var npc := Resolve(w.rooms[w.players[session.player].room].npcs, NpcNames(w.npcs), JoinFrom(command.args, 0));
      npc in w.npcs ==> InRange(command.roll, w.npcs[npc])
  }

  /** What the tokenizer makes of a command line. */
  predicate AreTokens(args: seq<string>) {
    forall i :: 0 <= i < |args| ==> IsToken(args[i])
  }

  function Args(command: Command): seq<string> {
    if command.Ask? || command.QuitGroup? then [] else command.args
  }

  predicate CanHandle(s: Server, sid: nat, command: Command) {
    sid in s.sessions && s.sessions[sid].pc.Idle? && AreTokens(Args(command)) && FairRoll(s.world, s.sessions[sid], command)
  }

  /** The saves are done; the maps are iterated in some orders. */
  predicate CanFollowUp(s: Server, sid: nat, questOrder: seq<string>, playerOrder: seq<string>) {
    && sid in s.sessions && s.sessions[sid].pc.Saving? && s.sessions[sid].pc.saves == []
    && IsOrderOf(questOrder, s.world.quests.Keys) && IsOrderOf(playerOrder, s.world.players.Keys)
  }

  predicate Enabled(s: Server, a: Action) {
    match a
    case Accept(sid) => sid !in s.sessions
    case Create(sid, _) => sid in s.sessions && s.sessions[sid].pc.Idle?
    case Connect(sid, _) => sid in s.sessions && s.sessions[sid].pc.Idle?
    case ReadFile(sid) => sid in s.sessions && s.sessions[sid].pc.Seeking?
    case Login(sid) => sid in s.sessions && s.sessions[sid].pc.Found?
    case Handle(sid, c) => CanHandle(s, sid, c)
    case Save(sid) => sid in s.sessions && HasSave(s.sessions[sid].pc)
    case FollowUp(sid, qs, ps) => CanFollowUp(s, sid, qs, ps)
    case Disconnect(sid) => sid in s.sessions && s.sessions[sid].pc.Idle?
  }

  function Step(s: Server, a: Action): Server
    requires Enabled(s, a)
  {
    match a
    case Accept(sid) => SetSession(s, sid, Session("", "", Idle))
    case Create(sid, args) => DoCreate(s, sid, args)
    case Connect(sid, args) => DoConnect(s, sid, args)
    case ReadFile(sid) => DoReadFile(s, sid)
    case Login(sid) => DoLogin(s, sid)
    case Handle(sid, command) => DoHandle(s, sid, command)
    case Save(sid) => DoSave(s, sid)
    case FollowUp(sid, qs, ps) => DoFollowUp(s, sid, qs, ps)
    case Disconnect(sid) => DoDisconnect(s, sid)
  }

  // ---- runs ----------------------------------------------------------------------------------

  ghost predicate PlacedIn(base: World, item: string, room: string) {
    room in base.rooms && item in base.rooms[room].items
  }

  ghost function RoomHolding(base: World, item: string): string
    requires exists r :: PlacedIn(base, item, r)
  {
    var r :| PlacedIn(base, item, r); r
  }

  /** Where the loader put each item. */
  ghost function PlacesAtStart(base: World): map<string, Place> {
    map i | i in base.items && (exists r :: PlacedIn(base, i, r)) :: InRoom(RoomHolding(base, i))
  }

  /** A server that has just loaded its world, over an empty character directory. */
  ghost function Start(base: World): Server {
    Server(base, map[], map[], false, map[], multiset{}, {}, multiset{},
           GroupLog(multiset{}, multiset{}, multiset{}, multiset{}, multiset{}), PlacesAtStart(base), map[])
  }

  ghost predicate CanRun(s: Server, run: seq<Action>)
    decreases |run|
  {
    run == [] || (Enabled(s, run[0]) && CanRun(Step(s, run[0]), run[1..]))
  }

  ghost function Exec(s: Server, run: seq<Action>): Server
    requires CanRun(s, run)
    decreases |run|
  {
    if run == [] then s else Exec(Step(s, run[0]), run[1..])
  }
}
