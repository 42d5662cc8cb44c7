/** Rooms with an empty id, which the loader accepts. A move into one is not saved, and a kill in one is not
    reported to the quest log: both failures happen exactly where players can walk to such a room. */
module Nowhere {
  import opened Tokens
  import opened Lists
  import opened WorldModel
  import opened Sections
  import opened WorldRules
  import opened Server
  import opened StepShapes
  import opened Invariants
  import opened Commits
  import opened LoginProof
  import opened QuestProof
  import opened Runs
  import opened RunTheorems
  import opened Serial
  import opened SerialProof
  import opened SerialTheorems

  // ---- building runs -------------------------------------------------------------------------

  ghost predicate RunsTo(s: Server, run: seq<Action>, s': Server) {
    CanRunSerially(s, run) && CanRun(s, run) && Exec(s, run) == s'
  }

  ghost predicate CanGet(s: Server, s': Server) {
    exists run :: RunsTo(s, run, s')
  }

  lemma {:induction false} RunOn(s: Server, a: seq<Action>, b: seq<Action>)
    requires CanRunSerially(s, a) && CanRun(s, a) && CanRunSerially(Exec(s, a), b) && CanRun(Exec(s, a), b)
    ensures CanRunSerially(s, a + b) && CanRun(s, a + b) && Exec(s, a + b) == Exec(Exec(s, a), b)
    decreases |a|
  {
    hide Enabled, Step, OneAtATime;
    if a == [] {
      assert a + b == b;
    } else {
      RunOn(Step(s, a[0]), a[1..], b);
      assert (a + b)[0] == a[0] && (a + b)[1..] == a[1..] + b;
    }
  }

  lemma GetOn(s: Server, t: Server, u: Server)
    requires CanGet(s, t) && CanGet(t, u)
    ensures CanGet(s, u)
  {
    hide CanRunSerially, CanRun, Exec;
    var a :| RunsTo(s, a, t);
    var b :| RunsTo(t, b, u);
    RunOn(s, a, b);
    assert RunsTo(s, a + b, u);
  }

  ghost predicate AtMostZero(sessions: map<nat, Session>) {
    sessions.Keys <= {0}
  }

  lemma GetByStep(s: Server, a: Action)
    requires Enabled(s, a) && AtMostZero(s.sessions) && AtMostZero(Step(s, a).sessions)
    ensures CanGet(s, Step(s, a))
  {
    hide Enabled, Step;
    assert OnlyBusy(s.sessions, 0) && OnlyBusy(Step(s, a).sessions, 0);
    assert RunsTo(s, [a], Step(s, a)) by {
      assert [a][1..] == [];
      assert CanRunSerially(Step(s, a), []) && CanRun(Step(s, a), []) && Exec(Step(s, a), []) == Step(s, a);
    }
  }

  // ---- one player on its own -----------------------------------------------------------------

  /** Player "a" alone on the server, in full health, in room `here`. */
  ghost predicate Alone(s: Server, here: string, quests: map<string, string>) {
    && s.sessions == map[0 := Session("a", here, Idle)]
    && "a" in s.world.players
    && var p := s.world.players["a"];
       p.id == "a" && p.room == here && p.hp == 100 && p.quests == quests
  }

  ghost predicate Filed(s: Server) {
    "a" in s.disk && s.disk["a"].room != ""
  }

  /** The same between a section and its save. */
  ghost predicate AloneSaving(s: Server, here: string, quests: map<string, string>) {
    && "a" in s.world.players
    && s.sessions == map[0 := Session("a", here, Saving([s.world.players["a"]], Nothing))]
    && var p := s.world.players["a"];
       p.id == "a" && p.room == here && p.hp == 100 && p.quests == quests
  }

  lemma SaveAlone(s: Server, here: string, quests: map<string, string>) returns (s': Server)
    requires AloneSaving(s, here, quests)
    ensures CanGet(s, s') && Alone(s', here, quests) && s'.world == s.world && s'.firstLogin == s.firstLogin
    ensures here != "" ==> Filed(s')
  {
    hide CanGet;
    s' := Step(s, Save(0));
    assert s'.sessions == map[0 := Session("a", here, Idle)];
    GetByStep(s, Save(0));
  }

  /** A new character arrives. */
  lemma Arrive(base: World) returns (s: Server)
    requires START_ROOM in base.rooms && Fresh(base)
    ensures CanGet(Start(base), s) && Alone(s, START_ROOM, InitQuests(base, NewCharacter("a", "", "")).quests) && Filed(s)
    ensures s.world == base.(players := s.world.players) && "a" in s.firstLogin
  {
    hide CanGet, InitQuests, PlacesAtStart;
    var s0 := Start(base);
    var s1 := Step(s0, Accept(0));
    assert s1.sessions == map[0 := Session("", "", Idle)];
    GetByStep(s0, Accept(0));
    InitQuestsId(base, "a", "", "");
    assert JoinFrom(["a"], 2) == "";
    var s2 := Step(s1, Create(0, ["a"]));
    ArrivalIsSaved(s1, s2);
    GetByStep(s1, Create(0, ["a"]));
    GetOn(s0, s1, s2);
    s := SaveAlone(s2, START_ROOM, InitQuests(base, NewCharacter("a", "", "")).quests);
    GetOn(s0, s2, s);
    assert START_ROOM != "" by { assert |START_ROOM| != 0; }
  }

  lemma ArrivalIsSaved(s1: Server, s2: Server)
    requires s1.sessions == map[0 := Session("", "", Idle)] && "a" !in s1.world.players && "a" !in s1.disk
    requires s2 == DoCreate(s1, 0, ["a"])
    ensures AloneSaving(s2, START_ROOM, InitQuests(s1.world, NewCharacter("a", "", "")).quests)
    ensures s2.world == s1.world.(players := s2.world.players) && "a" in s2.firstLogin
  {
    assert JoinFrom(["a"], 2) == "";
    assert IsValidName("a");
    var p := InitQuests(s1.world, NewCharacter("a", "", ""));
    assert s2.world == WithPlayer(s1.world, p, "a");
    assert s2.sessions == map[0 := Session("a", START_ROOM, Saving([p], Nothing))];
  }

  /** One command, and the save it queues if it queues one. */
  lemma HandleAlone(s: Server, here: string, quests: map<string, string>, command: Command, o: Outcome) returns (s': Server)
    requires Alone(s, here, quests) && AreTokens(Args(command)) && FairRoll(s.world, s.sessions[0], command)
    requires o == Run(s.world, "a", here, command) && o.Outcome? && o.follow == Nothing && "a" in o.world.players
    requires var p := o.world.players["a"]; p.id == "a" && p.room == o.room && p.hp == 100 && p.quests == quests
    requires o.saves == (if o.saves == [] then [] else [o.world.players["a"]])
    ensures CanGet(s, s') && Alone(s', o.room, quests) && s'.world == o.world && s'.firstLogin == s.firstLogin
    ensures (if o.saves == [] then Filed(s) else o.room != "") ==> Filed(s')
  {
    hide CanGet, Run, FairRoll, AreTokens, EventOf, Recorded, Moved, Commit, DoHandle;
    HandleShape(s, 0, command);
    CommitShape(s, 0, o, EventOf(s.world, "a", command, o));
    var s1 := Step(s, Handle(0, command));
    assert s1.sessions == map[0 := Session("a", o.room, After(o.saves, Nothing))];
    GetByStep(s, Handle(0, command));
    if o.saves == [] {
      s' := s1;
    } else {
      s' := SaveAlone(s1, o.room, quests);
      GetOn(s, s1, s');
    }
  }

  /** It walks into the next room; if that has an id, its move is saved. */
  lemma WalkOn(s: Server, here: string, quests: map<string, string>, d: string) returns (s': Server)
    requires Alone(s, here, quests) && Filed(s) && IsToken(d) && here in s.world.rooms && d in s.world.rooms[here].exits
    ensures CanGet(s, s') && Alone(s', s.world.rooms[here].exits[d], quests) && Filed(s')
    ensures s'.world == s.world.(players := s'.world.players) && s'.firstLogin == s.firstLogin
  {
    hide CanGet, IsToken;
    s' := HandleAlone(s, here, quests, MoveTo([d]), Move(s.world, "a", here, [d]));
  }

  lemma {:induction false} WalkAway(base: World, s: Server, here: string, quests: map<string, string>, walk: seq<string>) returns (s': Server)
    requires Alone(s, here, quests) && Filed(s) && s.world.rooms == base.rooms && Leads(base, here, walk, "")
    ensures CanGet(s, s') && Alone(s', "", quests) && Filed(s')
    ensures s'.world == s.world.(players := s'.world.players) && s'.firstLogin == s.firstLogin
    decreases |walk|
  {
    hide CanGet, Alone, Filed;
    if walk == [] {
      StayThere(s);
      s' := s;
    } else {
      var t := WalkOn(s, here, quests, walk[0]);
      s' := WalkAway(base, t, base.rooms[here].exits[walk[0]], quests, walk[1..]);
      GetOn(s, t, s');
    }
  }

  lemma StayThere(s: Server)
    requires exists here, quests :: Alone(s, here, quests)
    ensures CanGet(s, s)
  {
    assert OnlyBusy(s.sessions, 0);
    assert RunsTo(s, [], s);
  }

  // ---- files ---------------------------------------------------------------------------------

  ghost predicate FilesMatch(s: Server) {
    AllAtRest(s) ==> forall p :: p in s.world.players ==> p in s.disk && s.disk[p] == s.world.players[p]
  }

  /** In a loaded world, the files hold the players' states whenever all threads are at rest, in every serial
      run, exactly if players cannot walk into a room with an empty id. */
  lemma FilesMatchExactly(base: World)
    requires Loaded(base)
    ensures (forall s :: CanGet(Start(base), s) ==> FilesMatch(s)) <==> !Reached(base, "")
  {
    hide Loaded, Start, CanRunSerially, CanRun, Exec, Reached;
    if Reached(base, "") {
      var s := SomeoneIsNowhere(base);
      assert s.sessions[0].pc == Idle;
      assert !FilesMatch(s);
    } else {
      forall s | CanGet(Start(base), s) ensures FilesMatch(s) {
        var run :| RunsTo(Start(base), run, s);
        if AllAtRest(s) {
          forall p | p in s.world.players ensures p in s.disk && s.disk[p] == s.world.players[p] {
            FilesMatchMemory(base, run, p);
            SerialRun(base, run);
            SomewhereReached(base, s, p);
          }
        }
      }
    }
  }

  lemma SomewhereReached(base: World, s: Server, p: string)
    requires Inv(base, s) && p in s.world.players
    ensures Reached(base, s.world.players[p].room)
  {
    hide WorldOk, PcsGood, Sound, LoginInv, NamesInv, FirstLoginInv, FlipInv, GroupsAgree, GroupLogInv, Reached;
    PlayerIsGood(base, s.world, p);
  }

  /** In room "", while the file still has another room. */
  ghost predicate Nowhere(base: World, s: Server) {
    && Alone(s, "", InitQuests(base, NewCharacter("a", "", "")).quests) && Filed(s)
    && s.world == base.(players := s.world.players) && "a" in s.firstLogin
  }

  lemma SomeoneIsNowhere(base: World) returns (s: Server)
    requires Loaded(base) && Reached(base, "")
    ensures CanGet(Start(base), s) && Nowhere(base, s)
  {
    hide CanGet, Alone, Filed, Start, InitQuests, Assumed, ExitsLead, ItemsKnown, ItemsUnique, NpcsKnown, QuestsKnown, UnlocksKnown, Fresh;
    var walk :| Leads(base, START_ROOM, walk, "");
    var t := Arrive(base);
    s := WalkAway(base, t, START_ROOM, InitQuests(base, NewCharacter("a", "", "")).quests, walk);
    GetOn(Start(base), t, s);
  }

  // ---- kills ---------------------------------------------------------------------------------

  /** A killing ATTACK that clears a quest leaves a report on its way - its own, or one that was on its way
      already - exactly if it did not happen in a room with an empty id. */
  lemma KillIsReportedExactly(base: World, s: Server, sid: nat, args: seq<string>, roll: Roll, q: string)
    requires Loaded(base) && Inv(base, s) && CanHandle(s, sid, AttackNpc(args, roll)) && s.sessions[sid].player != ""
    requires q in base.quests && base.quests[q].kind.Defeat? && !AllDead(base.quests[q].targets, s.world.npcs)
    requires AllDead(base.quests[q].targets, DoHandle(s, sid, AttackNpc(args, roll)).world.npcs)
    ensures
      var s' := DoHandle(s, sid, AttackNpc(args, roll));
      KillPending(s'.sessions, base.quests[q].targets) <==>
        s.sessions[sid].room != "" || KillPending(s.sessions, base.quests[q].targets)
  {
    hide Loaded, WorldOk, StatesInv, LoginInv, NamesInv, FirstLoginInv, FlipInv, GroupsAgree, GroupLogInv, AllDead, KillPending,
         Attack, EventOf, Recorded, FairRoll, Behaves, PlayersGood;
    var session, targets := s.sessions[sid], base.quests[q].targets;
    var command := AttackNpc(args, roll);
    var o, s' := Attack(s.world, session.player, session.room, args, roll), DoHandle(s, sid, command);
    LiveIsReady(base, s, sid);
    RunBehaves(base, s.world, session, command);
    BehavesSpeaks(base, s.world, session.player, session.room, o);
    HandleShape(s, sid, command);
    CommitShape(s, sid, o, EventOf(s.world, session.player, command, o));
    if session.room != "" {
      KillFollows(base, s.world, session.player, session.room, o, base.quests[q]);
      NowPending(s'.sessions, sid, targets);
    } else {
      UnnamedRoom(base, s.world, session.player);
      NothingFollows(s.world, session.player, args, roll);
      if KillPending(s.sessions, targets) {
        KillsStay(s.sessions, sid, s'.sessions[sid], targets);
      }
      if KillPending(s'.sessions, targets) {
        StillPending(s.sessions, sid, s'.sessions[sid], targets);
      }
    }
  }

  lemma KillFollows(base: World, w: World, pid: string, room: string, o: Outcome, quest: Quest)
    requires pid in w.players && room == w.players[pid].room && room != "" && Behaves(base, w, pid, room, o)
    requires quest.kind.Defeat? && !AllDead(quest.targets, w.npcs) && AllDead(quest.targets, o.world.npcs)
    ensures o.follow.Defeated? && o.follow.npc in quest.targets
  {
    hide MapOk, StateOk, Moves, Reached;
    var p' :| Change(base, w, o.world, pid, w.players[pid], p', o.follow, o.transfer);
    var n :| n in quest.targets && !(n in w.npcs && w.npcs[n].hp <= 0);
    assert n in o.world.npcs && o.world.npcs[n].hp <= 0;
  }

  lemma UnnamedRoom(base: World, w: World, pid: string)
    requires Loaded(base) && WorldOk(base, w) && PlayersGood(base, w.npcs, w.players) && pid in w.players && w.players[pid].room == ""
    ensures "" in w.rooms && w.rooms[""].id == ""
  {
    hide Checked, Assumed, RoomItemsKnown, NpcLife, Sound, Reached;
    PlayerIsGood(base, w, pid);
  }

  lemma NothingFollows(w: World, pid: string, args: seq<string>, roll: Roll)
    requires pid in w.players && w.players[pid].room == "" && "" in w.rooms && w.rooms[""].id == ""
    ensures var o := Attack(w, pid, "", args, roll); o.Outcome? ==> o.follow == Nothing
  {
    hide HurtNpc;
  }

  lemma StillPending(sessions: map<nat, Session>, sid: nat, session: Session, targets: seq<string>)
    requires KillPending(sessions[sid := session], targets) && !Kills(session.pc, targets)
    ensures KillPending(sessions, targets)
  {
    var t :| t in sessions[sid := session] && Kills(sessions[sid := session][t].pc, targets);
    assert t != sid && Kills(sessions[t].pc, targets);
  }

  /** The place where "a" fights: room "", and NPCs whose counter attacks have a range. */
  ghost predicate Arena(w: World) {
    "" in w.rooms && w.rooms[""].id == "" && forall n {:trigger w.npcs[n]} :: n in w.npcs ==> w.npcs[n].counterMin <= w.npcs[n].counterMax
  }

  predicate Stands(w: World, n: string) {
    n in w.npcs && (w.npcs[n].hp > 0 ==> "" in w.rooms && n in w.rooms[""].npcs)
  }

  /** One hit for ten; nobody else is hurt or leaves. */
  ghost predicate Hit(w: World, w': World, n: string, hp: int) {
    && n in w.npcs && w'.npcs == WithHp(w.npcs, n, hp) && w'.quests == w.quests
    && forall m {:trigger Stands(w', m)} :: Stands(w, m) ==> Stands(w', m)
  }

  lemma HurtHits(w: World, n: string)
    requires Arena(w) && n in w.npcs && n in w.rooms[""].npcs
    ensures Arena(HurtNpc(w, "", n, 10)) && Hit(w, HurtNpc(w, "", n, 10), n, Max(0, w.npcs[n].hp - 10))
  {
    WithoutMembers(w.rooms[""].npcs, n);
    var w', hp := HurtNpc(w, "", n, 10), Max(0, w.npcs[n].hp - 10);
    assert w'.npcs == WithHp(w.npcs, n, hp);
    forall m | m in w'.npcs ensures w'.npcs[m].counterMin <= w'.npcs[m].counterMax {
      assert m in w.npcs && w.npcs[m].counterMin <= w.npcs[m].counterMax;
    }
    forall m | Stands(w, m) ensures Stands(w', m) {
    }
  }

  lemma HitOnce(s: Server, quests: map<string, string>, n: string) returns (s': Server)
    requires Alone(s, "", quests) && Arena(s.world) && IsToken(n) && n in s.world.npcs && n in s.world.rooms[""].npcs
    ensures CanGet(s, s') && Alone(s', "", quests) && s'.firstLogin == s.firstLogin
    ensures Arena(s'.world) && Hit(s.world, s'.world, n, Max(0, s.world.npcs[n].hp - 10))
  {
    hide CanGet, HurtNpc, Hit, Arena, FairRoll, Attack;
    var roll := Roll(true, 10, false, s.world.npcs[n].counterMin);
    var command := AttackNpc([n], roll);
    ArenaRoom(s.world);
    HurtHits(s.world, n);
    HitResult(s.world, n, roll);
    HitIsFair(s, n, roll);
    s' := HandleAlone(s, "", quests, command, Attack(s.world, "a", "", [n], roll));
    PlayersDoNotMatter(s.world, HurtNpc(s.world, "", n, 10), s'.world.players["a"], n);
  }

  lemma PlayersDoNotMatter(w: World, hurt: World, p: PlayerState, n: string)
    requires n in w.npcs && Arena(hurt) && Hit(w, hurt, n, Max(0, w.npcs[n].hp - 10))
    ensures Arena(WithPlayer(hurt, p, "a")) && Hit(w, WithPlayer(hurt, p, "a"), n, Max(0, w.npcs[n].hp - 10))
  {
    var w' := WithPlayer(hurt, p, "a");
    assert forall m {:trigger Stands(w', m)} :: Stands(w', m) <==> Stands(hurt, m);
  }

  lemma HitResult(w: World, n: string, roll: Roll)
    requires Arena(w) && n in w.npcs && n in w.rooms[""].npcs && n != "" && roll.hit && roll.damage == 10 && !roll.countered
    requires "a" in w.players && w.players["a"].room == "" && w.players["a"].hp == 100
    ensures
      var o, p, hurt := Attack(w, "a", "", [n], roll), w.players["a"].(lastTarget := n), HurtNpc(w, "", n, 10);
      o == Outcome(WithPlayer(hurt, p, "a"), "", Ok, [p], Nothing, Stay)
  {
    hide HurtNpc, Arena;
    assert JoinFrom([n], 0) == n;
    ArenaRoom(w);
    assert n in HurtNpc(w, "", n, 10).npcs by { HurtHits(w, n); }
  }

  lemma ArenaRoom(w: World)
    requires Arena(w)
    ensures "" in w.rooms && w.rooms[""].id == ""
  {
  }

  lemma HitIsFair(s: Server, n: string, roll: Roll)
    requires 0 in s.sessions && s.sessions[0].player == "a" && "a" in s.world.players && s.world.players["a"].room == ""
    requires Arena(s.world) && n in s.world.npcs && n in s.world.rooms[""].npcs && IsToken(n)
    requires roll == Roll(true, 10, false, s.world.npcs[n].counterMin)
    ensures AreTokens([n]) && FairRoll(s.world, s.sessions[0], AttackNpc([n], roll))
  {
    assert JoinFrom([n], 0) == n;
  }

  lemma {:induction false} KillOne(s: Server, quests: map<string, string>, n: string) returns (s': Server)
    requires Alone(s, "", quests) && Arena(s.world) && IsToken(n) && Stands(s.world, n)
    ensures CanGet(s, s') && Alone(s', "", quests) && s'.firstLogin == s.firstLogin && Arena(s'.world)
    ensures Worn(s.world, s'.world) && n in s'.world.npcs && s'.world.npcs[n].hp <= 0
    decreases if n in s.world.npcs then Max(0, s.world.npcs[n].hp) else 0
  {
    hide CanGet, Alone, Arena, IsToken, Worn;
    if s.world.npcs[n].hp <= 0 {
      StayThere(s);
      WornSame(s.world);
      s' := s;
    } else {
      ArenaRoom(s.world);
      var t := HitOnce(s, quests, n);
      HitWears(s.world, t.world, n, Max(0, s.world.npcs[n].hp - 10));
      s' := KillOne(t, quests, n);
      GetOn(s, t, s');
      WornOn(s.world, t.world, s'.world);
    }
  }

  /** NPCs lose hp only, and those who live stay in room "". */
  ghost predicate Worn(w: World, w': World) {
    && HpFalls(w.npcs, w'.npcs) && w'.quests == w.quests
    && forall m {:trigger Stands(w', m)} :: Stands(w, m) ==> Stands(w', m)
  }

  lemma WornSame(w: World)
    ensures Worn(w, w)
  {
  }

  lemma WornOn(w: World, w': World, w'': World)
    requires Worn(w, w') && Worn(w', w'')
    ensures Worn(w, w'')
  {
  }

  lemma HitWears(w: World, w': World, n: string, hp: int)
    requires Hit(w, w', n, hp) && hp <= w.npcs[n].hp
    ensures Worn(w, w') && n in w'.npcs && w'.npcs[n].hp == hp
    ensures Stands(w, n) ==> Stands(w', n)
  {
    hide Stands;
  }

  lemma {:induction false} KillAll(s: Server, quests: map<string, string>, targets: seq<string>) returns (s': Server)
    requires Alone(s, "", quests) && Arena(s.world) && forall t :: t in targets ==> IsToken(t) && Stands(s.world, t)
    ensures CanGet(s, s') && Alone(s', "", quests) && s'.firstLogin == s.firstLogin
    ensures Worn(s.world, s'.world) && AllDead(targets, s'.world.npcs)
    decreases |targets|
  {
    hide CanGet, Alone, Arena, IsToken, HpFalls, Stands;
    if targets == [] {
      StayThere(s);
      WornSame(s.world);
      s' := s;
    } else {
      var t := KillOne(s, quests, targets[0]);
      s' := KillAll(t, quests, targets[1..]);
      GetOn(s, t, s');
      WornOn(s.world, t.world, s'.world);
      DeadStays(t.world.npcs, s'.world.npcs, targets[0]);
      assert targets == [targets[0]] + targets[1..];
    }
  }

  lemma DeadStays(npcs: map<string, Npc>, npcs': map<string, Npc>, n: string)
    requires HpFalls(npcs, npcs') && n in npcs && npcs[n].hp <= 0
    ensures n in npcs' && npcs'[n].hp <= 0
  {
  }

  // ---- quests --------------------------------------------------------------------------------

  /** The targets of a quest stand in one room, under ids that can be typed. */
  ghost predicate StandTogether(w: World, quest: Quest) {
    exists r :: r in w.rooms && forall n :: n in quest.targets ==> n in w.rooms[r].npcs && IsToken(n)
  }

  /** Player `p` in its first login has the cleared quest completed, or a report on its way. */
  ghost predicate Told(base: World, s: Server, p: string, q: string)
    requires q in base.quests
  {
    p in s.firstLogin && AllDead(base.quests[q].targets, s.world.npcs) ==>
      KillPending(s.sessions, base.quests[q].targets) || IsCompleted(s.world.players, p, q)
  }

  /** Some run, with whatever interleaving, leads there. */
  ghost predicate CanBe(base: World, s: Server) {
    exists run :: CanRun(Start(base), run) && Exec(Start(base), run) == s
  }

  /** For a defeat quest whose targets stand in one room: first-login players are told of its being cleared
      in every run, exactly if that room is not one with an empty id that players can walk to. */
  lemma ToldExactly(base: World, q: string)
    requires Loaded(base) && q in base.quests && base.quests[q].kind.Defeat? && StandTogether(base, base.quests[q])
    ensures
      (forall s, p :: CanBe(base, s) ==> Told(base, s, p, q)) <==> !StandsNowhere(base, base.quests[q])
  {
    hide Loaded, Start, CanRun, Exec, StandsNowhere, StandTogether, Told, CanRunSerially;
    if StandsNowhere(base, base.quests[q]) {
      var s := ClearedUntold(base, q);
      var run :| RunsTo(Start(base), run, s);
      assert CanBe(base, s) && !Told(base, s, "a", q);
    } else {
      forall s, p | CanBe(base, s) ensures Told(base, s, p, q) {
        var run :| CanRun(Start(base), run) && Exec(Start(base), run) == s;
        ToldElsewhere(base, run, p, q);
      }
    }
  }

  lemma ToldElsewhere(base: World, run: seq<Action>, p: string, q: string)
    requires Loaded(base) && CanRun(Start(base), run) && q in base.quests && base.quests[q].kind.Defeat?
    requires !StandsNowhere(base, base.quests[q])
    ensures Told(base, Exec(Start(base), run), p, q)
  {
    hide Loaded, Start, CanRun, Exec, StandsNowhere, KillPending, AllDead;
    if p in Exec(Start(base), run).firstLogin {
      ClearedMeansCompleted(base, run, p, q);
    }
  }

  lemma ClearedUntold(base: World, q: string) returns (s: Server)
    requires Loaded(base) && q in base.quests && base.quests[q].kind.Defeat?
    requires StandTogether(base, base.quests[q]) && StandsNowhere(base, base.quests[q])
    ensures CanGet(Start(base), s) && !Told(base, s, "a", q)
  {
    hide CanGet, Loaded, Start, InitQuests, IsToken, Reached, StandTogether;
    AllStandNowhere(base, base.quests[q]);
    var quests := InitQuests(base, NewCharacter("a", "", "")).quests;
    var t := SomeoneIsNowhere(base);
    OpenAtFirst(base, q);
    s := KillAll(t, quests, base.quests[q].targets);
    GetOn(Start(base), t, s);
    NothingPending(s, quests, base.quests[q].targets);
    KillsKeepLogin(base, t, s, quests, q);
  }

  lemma AllStandNowhere(base: World, quest: Quest)
    requires Loaded(base) && StandTogether(base, quest) && StandsNowhere(base, quest)
    ensures Arena(base) && forall n :: n in quest.targets ==> IsToken(n) && Stands(base, n)
  {
    hide ExitsLead, ItemsKnown, ItemsUnique, QuestsKnown, UnlocksKnown, IsToken, Reached, AmountsSane, NoRewards;
  }

  lemma OpenAtFirst(base: World, q: string)
    requires Loaded(base) && q in base.quests && base.quests[q].kind.Defeat?
    ensures
      var quests := InitQuests(base, NewCharacter("a", "", "")).quests;
      q in quests && quests[q] != COMPLETED
  {
    hide ExitsLead, ItemsKnown, ItemsUnique, NpcsKnown, UnlocksKnown, AmountsSane, NoRewards;
    StatusesDiffer();
    assert base.quests[q].targets[0] in base.npcs;
  }

  lemma NothingPending(s: Server, quests: map<string, string>, targets: seq<string>)
    requires Alone(s, "", quests)
    ensures !KillPending(s.sessions, targets)
  {
  }

  lemma KillsKeepLogin(base: World, t: Server, s: Server, quests: map<string, string>, q: string)
    requires Alone(s, "", quests) && s.firstLogin == t.firstLogin && "a" in t.firstLogin && q in quests && quests[q] != COMPLETED
    ensures "a" in s.firstLogin && !IsCompleted(s.world.players, "a", q)
  {
  }
}
