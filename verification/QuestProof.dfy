/** Defeat quests are completed when, and only when, all their targets are dead, once per login. */
module QuestProof {
  import opened Lists
  import opened WorldModel
  import opened Sections
  import opened WorldRules
  import opened Completions
  import opened Server
  import opened Invariants
  import opened Commits
  import opened StatesProof
  import opened LoginProof

  // ---- completeness in the first login -------------------------------------------------------

  /** What `FirstLoginInv` asks of one player and one quest. */
  ghost predicate Settled(base: World, s: Server, p: string, q: string) {
    p in s.world.players && q in base.quests && q in s.world.players[p].quests && AlreadyDone(base.quests[q], s.world.npcs)
    ==> || s.world.players[p].quests[q] == COMPLETED || KillPending(s.sessions, base.quests[q].targets)
        || StandsNowhere(base, base.quests[q])
  }

  lemma AllSettled(base: World, s: Server)
    requires FirstLoginInv(base, s)
    ensures forall p, q {:trigger Settled(base, s, p, q)} :: p in s.firstLogin ==> Settled(base, s, p, q)
    ensures s.firstLogin <= s.world.players.Keys
  {
    hide AlreadyDone, KillPending;
  }

  lemma FirstLoginFrom(base: World, s: Server)
    requires forall p, q {:trigger Settled(base, s, p, q)} :: p in s.firstLogin ==> Settled(base, s, p, q)
    requires s.firstLogin <= s.world.players.Keys
    ensures FirstLoginInv(base, s)
  {
    hide AlreadyDone, KillPending;
    forall p, q | p in s.firstLogin && p in s.world.players && q in base.quests && q in s.world.players[p].quests
                  && AlreadyDone(base.quests[q], s.world.npcs)
      ensures s.world.players[p].quests[q] == COMPLETED || KillPending(s.sessions, base.quests[q].targets)
           || StandsNowhere(base, base.quests[q])
    {
      assert Settled(base, s, p, q);
    }
  }

  /** Kills pending in other threads stay pending. */
  lemma KillsStay(sessions: map<nat, Session>, sid: nat, session: Session, targets: seq<string>)
    requires KillPending(sessions, targets)
    requires sid in sessions && (Kills(sessions[sid].pc, targets) ==> Kills(session.pc, targets))
    ensures KillPending(sessions[sid := session], targets)
  {
    var t :| t in sessions && Kills(sessions[t].pc, targets);
    assert Kills(sessions[sid := session][t].pc, targets);
  }

  /** A step that leaves every old player's statuses, and the NPCs, alone and loses no pending kill. */
  lemma FirstLoginUpdate(base: World, s: Server, s': Server, sid: nat)
    requires FirstLoginInv(base, s)
    requires s'.firstLogin <= s.firstLogin && s'.firstLogin <= s'.world.players.Keys
    requires forall p {:trigger s'.world.players[p]} :: p in s'.firstLogin ==> s'.world.players[p] == s.world.players[p]
    requires s'.world.npcs == s.world.npcs
    requires sid in s.sessions && sid in s'.sessions && s'.sessions == s.sessions[sid := s'.sessions[sid]]
    requires s.sessions[sid].pc.Saving? ==>
               || (s'.sessions[sid].pc.Saving? && s'.sessions[sid].pc.follow == s.sessions[sid].pc.follow)
               || s.sessions[sid].pc.follow == Nothing
    ensures FirstLoginInv(base, s')
  {
    hide FirstLoginInv, KillPending, AlreadyDone;
    AllSettled(base, s);
    forall p, q | p in s'.firstLogin ensures Settled(base, s', p, q) {
      assert Settled(base, s, p, q);
      if q in base.quests && KillPending(s.sessions, base.quests[q].targets) {
        KillsStay(s.sessions, sid, s'.sessions[sid], base.quests[q].targets);
      }
    }
    FirstLoginFrom(base, s');
  }

  lemma AcceptFirstLogin(base: World, s: Server, sid: nat)
    requires FirstLoginInv(base, s) && sid !in s.sessions
    ensures FirstLoginInv(base, SetSession(s, sid, Session("", "", Idle)))
  {
    hide FirstLoginInv, AlreadyDone;
    AllSettled(base, s);
    var s' := SetSession(s, sid, Session("", "", Idle));
    forall p, q | p in s'.firstLogin ensures Settled(base, s', p, q) {
      assert Settled(base, s, p, q);
      if q in base.quests && KillPending(s.sessions, base.quests[q].targets) {
        var t :| t in s.sessions && Kills(s.sessions[t].pc, base.quests[q].targets);
        assert Kills(s'.sessions[t].pc, base.quests[q].targets);
      }
    }
    FirstLoginFrom(base, s');
  }

  /** When a quest's last target dies, the section that killed it has its follow-up pending, unless it
      happened in a room with an empty id. */
  lemma LastDeath(base: World, here: string, npcs: map<string, Npc>, npcs': map<string, Npc>, quest: Quest, follow: Follow)
    requires Deaths(base, here, npcs, npcs', follow) && npcs'.Keys == npcs.Keys && Reached(base, here)
    requires AlreadyDone(quest, npcs') && !AlreadyDone(quest, npcs)
    ensures (follow.Defeated? && follow.npc in quest.targets) || StandsNowhere(base, quest)
  {
    var n :| n in quest.targets && !(n in npcs && npcs[n].hp <= 0);
    assert n in npcs' && npcs'[n].hp <= 0;
  }

  lemma BehavesFirstLogin(base: World, s: Server, sid: nat, o: Outcome, event: GroupEvent)
    requires FirstLoginInv(base, s) && sid in s.sessions && s.sessions[sid].pc.Idle?
    requires s.sessions[sid].player in s.world.players
    requires Behaves(base, s.world, s.sessions[sid].player, s.sessions[sid].room, o)
    ensures FirstLoginInv(base, Commit(s, sid, o, event))
  {
    hide FirstLoginInv, KillPending, AlreadyDone, Deaths, MapOk, StateOk, Moves, Recorded, Moved, Flipped, HpFalls;
    var pid := s.sessions[sid].player;
    var s' := Commit(s, sid, o, event);
    AllSettled(base, s);
    if o.world == s.world {
      FirstLoginUpdate(base, s, s', sid);
    } else {
      var p' :| Change(base, s.world, o.world, pid, s.world.players[pid], p', o.follow, o.transfer);
      KeysSame(s.world.npcs, o.world.npcs);
      forall p, q | p in s'.firstLogin ensures Settled(base, s', p, q) {
        assert Settled(base, s, p, q);
        if q in base.quests && AlreadyDone(base.quests[q], o.world.npcs) {
          var targets := base.quests[q].targets;
          if !AlreadyDone(base.quests[q], s.world.npcs) {
            LastDeath(base, s.world.players[pid].room, s.world.npcs, o.world.npcs, base.quests[q], o.follow);
            if !StandsNowhere(base, base.quests[q]) {
              NowPending(s'.sessions, sid, targets);
            }
          } else if KillPending(s.sessions, targets) {
            KillsStay(s.sessions, sid, s'.sessions[sid], targets);
          }
        }
      }
      FirstLoginFrom(base, s');
    }
  }

  lemma KeysSame(npcs: map<string, Npc>, npcs': map<string, Npc>)
    requires HpFalls(npcs, npcs')
    ensures npcs'.Keys == npcs.Keys
  {
  }

  lemma NowPending(sessions: map<nat, Session>, sid: nat, targets: seq<string>)
    requires sid in sessions && Kills(sessions[sid].pc, targets)
    ensures KillPending(sessions, targets)
  {
  }

  lemma GroupOnlyFirstLogin(base: World, s: Server, sid: nat, o: Outcome, event: GroupEvent)
    requires FirstLoginInv(base, s) && sid in s.sessions && s.sessions[sid].pc.Idle?
    requires GroupOnly(s.world, s.sessions[sid].room, o)
    ensures FirstLoginInv(base, Commit(s, sid, o, event))
  {
    hide FirstLoginInv, Recorded, Moved, Flipped;
    assert s.firstLogin <= s.world.players.Keys by { AllSettled(base, s); }
    FirstLoginUpdate(base, s, Commit(s, sid, o, event), sid);
  }

  /** The follow-up of a kill completes, for everyone, each quest it was pending for. */
  lemma FollowUpFirstLogin(base: World, s: Server, sid: nat, questOrder: seq<string>, playerOrder: seq<string>)
    requires Loaded(base) && WorldOk(base, s.world) && StatesInv(base, s) && FirstLoginInv(base, s)
    requires CanFollowUp(s, sid, questOrder, playerOrder) && s.sessions[sid].pc.follow != Nothing
    requires s.sessions[sid].player in s.world.players && s.sessions[sid].room == s.world.players[s.sessions[sid].player].room
    ensures FirstLoginInv(base, Commit(s, sid, FollowUpOutcome(s, sid, questOrder, playerOrder), NoEvent))
  {
    hide FirstLoginInv, KillPending, AllDead, MapOk, PlayersGood, PcsGood, Recorded, Moved, Flipped, IsOrderOf, Loaded,
         PlayersAdvance, SavesGood, SavesOf, HpFalls, Progress, AllCleared, FollowUpOutcome, FollowUpQuests;
    var o := FollowUpOutcome(s, sid, questOrder, playerOrder);
    FollowUpIsTame(base, s, sid, questOrder, playerOrder);
    AllSettled(base, s);
    var s' := Commit(s, sid, o, NoEvent);
    forall p, q | p in s'.firstLogin ensures Settled(base, s', p, q) {
      if p in s.world.players && q in base.quests && AlreadyDone(base.quests[q], s.world.npcs) {
        assert Settled(base, s, p, q);
        var targets := base.quests[q].targets;
        StatusMoves(base, s, o, s.sessions[sid].player, p, q);
        if Kills(s.sessions[sid].pc, targets) {
          FollowUpCloses(base, s, sid, questOrder, playerOrder, p, q);
        } else if KillPending(s.sessions, targets) {
          KillsStay(s.sessions, sid, s'.sessions[sid], targets);
        }
      }
    }
    assert s'.firstLogin <= s'.world.players.Keys by { AdvanceKeys(s.world.players, o.world.players, s.sessions[sid].player); }
    FirstLoginFrom(base, s');
  }

  lemma AdvanceKeys(players: map<string, PlayerState>, players': map<string, PlayerState>, pid: string)
    requires PlayersAdvance(players, players', pid)
    ensures players'.Keys == players.Keys
  {
  }

  lemma StatusMoves(base: World, s: Server, o: Outcome, pid: string, p: string, q: string)
    requires Tame(base, s.world, pid, o) && p in s.world.players
    ensures p in o.world.players && (q in o.world.players[p].quests <==> q in s.world.players[p].quests)
    ensures q in s.world.players[p].quests && s.world.players[p].quests[q] == COMPLETED ==> o.world.players[p].quests[q] == COMPLETED
  {
    hide PlayersGood, SavesGood, SavesOf, HpFalls, MapOk;
    StatusesDiffer();
    assert StatusesAdvance(s.world.players[p], o.world.players[p]);
  }

  lemma FollowUpCloses(
    base: World, s: Server, sid: nat, questOrder: seq<string>, playerOrder: seq<string>, p: string, q: string)
    requires Loaded(base) && WorldOk(base, s.world) && StatesInv(base, s)
    requires CanFollowUp(s, sid, questOrder, playerOrder)
    requires p in s.world.players && q in base.quests && AlreadyDone(base.quests[q], s.world.npcs)
    requires Kills(s.sessions[sid].pc, base.quests[q].targets)
    ensures
      var o := FollowUpOutcome(s, sid, questOrder, playerOrder);
      && o.Outcome? && p in o.world.players
      && (q in o.world.players[p].quests ==> o.world.players[p].quests[q] == COMPLETED)
  {
    hide MapOk, PlayersGood, PcsGood, Loaded, DefeatPass, AllDead, IsOrderOf, Progress, IdsMatch;
    var npc := s.sessions[sid].pc.follow.npc;
    IdsAreKeys(base, s.world.npcs, s.world.players);
    RewardsAreNone(base);
    DefeatCompletes(s.world, s.sessions[sid].room, npc, questOrder, playerOrder);
    assert q in ClearedBy(s.world.quests, s.world.npcs, npc);
    if q in s.world.players[p].quests {
      StatusKnown(base, s.world.npcs, s.world.players, p, q);
    }
  }

  lemma RewardsAreNone(base: World)
    requires Loaded(base)
    ensures forall q :: q in base.quests ==> base.quests[q].reward == ""
  {
    hide Checked, Fresh, NpcsSane, AmountsSane;
  }

  lemma StatusKnown(base: World, npcs: map<string, Npc>, players: map<string, PlayerState>, p: string, q: string)
    requires PlayersGood(base, npcs, players) && p in players && q in players[p].quests
    ensures players[p].quests[q] == IN_PROGRESS || players[p].quests[q] == COMPLETED
  {
    hide Sound;
  }

  lemma CreateFirstLogin(base: World, s: Server, sid: nat, args: seq<string>)
    requires FirstLoginInv(base, s) && s.world.quests == base.quests && sid in s.sessions && s.sessions[sid].pc.Idle?
    ensures FirstLoginInv(base, DoCreate(s, sid, args))
  {
    hide FirstLoginInv, KillPending, AlreadyDone, IsValidName;
    var s' := DoCreate(s, sid, args);
    if s' != s {
      AllSettled(base, s);
      forall p, q | p in s'.firstLogin ensures Settled(base, s', p, q) {
        if p != args[0] {
          assert Settled(base, s, p, q);
          if q in base.quests && KillPending(s.sessions, base.quests[q].targets) {
            KillsStay(s.sessions, sid, s'.sessions[sid], base.quests[q].targets);
          }
        }
      }
      FirstLoginFrom(base, s');
    }
  }

  // ---- at most one completion per login ------------------------------------------------------

  ghost predicate FlipOk(s: Server, sid: nat, q: string) {
    && s.flips[(sid, q)] <= 1
    && (s.flips[(sid, q)] == 1 ==>
          && sid in s.sessions && s.sessions[sid].player != ""
          && (Live(s.sessions[sid]) ==> IsCompleted(s.world.players, s.sessions[sid].player, q)))
  }

  lemma AllFlipsOk(s: Server)
    requires FlipInv(s)
    ensures forall sid, q {:trigger FlipOk(s, sid, q)} :: FlipOk(s, sid, q)
  {
    hide IsCompleted;
  }

  lemma FlipsFrom(s: Server)
    requires forall sid, q {:trigger FlipOk(s, sid, q)} :: FlipOk(s, sid, q)
    ensures FlipInv(s)
  {
    hide IsCompleted;
    forall sid, q ensures FlipOk(s, sid, q) {
    }
    assert forall sid, q {:trigger s.flips[(sid, q)]} :: FlipOk(s, sid, q);
  }

  lemma CommitFlips(base: World, s: Server, sid: nat, o: Outcome, event: GroupEvent)
    requires FlipInv(s) && LoginInv(s.sessions, s.world.players, s.owner)
    requires sid in s.sessions && Live(s.sessions[sid]) && Tame(base, s.world, s.sessions[sid].player, o)
    ensures FlipInv(Commit(s, sid, o, event))
  {
    hide FlipInv, LoginInv, PlayersGood, SavesGood, SavesOf, HpFalls, MapOk, Recorded, Moved, Flipped, PlayersAdvance;
    AllFlipsOk(s);
    var s' := Commit(s, sid, o, event);
    var F := Flipped(s.owner, s.world.players, o.world.players);
    forall t, q ensures FlipOk(s', t, q) {
      assert FlipOk(s, t, q);
      assert s'.flips[(t, q)] == s.flips[(t, q)] + multiset(F)[(t, q)];
      if (t, q) in F {
        FreshFlip(base, s, o, s.sessions[sid].player, t, q);
      } else if t in s.sessions {
        var p := s.sessions[t].player;
        if p in s.world.players {
          StatusMoves(base, s, o, s.sessions[sid].player, p, q);
        }
      }
    }
    FlipsFrom(s');
  }

  /** A status that flips was open, so it had not flipped before in this login. */
  lemma FreshFlip(base: World, s: Server, o: Outcome, pid: string, t: nat, q: string)
    requires FlipInv(s) && LoginInv(s.sessions, s.world.players, s.owner) && o.Outcome?
    requires (t, q) in Flipped(s.owner, s.world.players, o.world.players)
    ensures s.flips[(t, q)] == 0
    ensures t in s.sessions && Live(s.sessions[t]) && IsCompleted(o.world.players, s.sessions[t].player, q)
  {
    StatusesDiffer();
    var p :| p in s.owner && s.owner[p] == t && p in s.world.players && p in o.world.players && IsOpen(s.world.players[p], q)
             && q in o.world.players[p].quests && o.world.players[p].quests[q] == COMPLETED;
    assert s.sessions[s.owner[p]].player == p;
  }

  /** A step that completes nothing and touches only one session and its player. */
  lemma FlipsUpdate(s: Server, s': Server, sid: nat)
    requires FlipInv(s) && sid in s'.sessions && s'.flips == s.flips
    requires s'.sessions == s.sessions[sid := s'.sessions[sid]]
    requires sid in s.sessions && s.sessions[sid].player != "" ==> s'.sessions[sid].player == s.sessions[sid].player
    requires Live(s'.sessions[sid]) ==> sid in s.sessions && (Live(s.sessions[sid]) || s.sessions[sid].player == "")
    requires forall t :: t in s'.sessions && Live(s'.sessions[t]) && s'.sessions[t].player in s.world.players ==>
               s'.sessions[t].player in s'.world.players
               && s'.world.players[s'.sessions[t].player] == s.world.players[s'.sessions[t].player]
    ensures FlipInv(s')
  {
    hide FlipInv;
    AllFlipsOk(s);
    forall t, q ensures FlipOk(s', t, q) {
      assert FlipOk(s, t, q);
    }
    FlipsFrom(s');
  }

  lemma AcceptFlips(s: Server, sid: nat)
    requires FlipInv(s) && sid !in s.sessions
    ensures FlipInv(SetSession(s, sid, Session("", "", Idle)))
  {
    hide FlipInv;
    AllFlipsOk(s);
    var s' := SetSession(s, sid, Session("", "", Idle));
    forall t, q ensures FlipOk(s', t, q) {
      assert FlipOk(s, t, q);
    }
    FlipsFrom(s');
  }

  lemma CreateFlips(s: Server, sid: nat, args: seq<string>)
    requires FlipInv(s) && sid in s.sessions
    ensures FlipInv(DoCreate(s, sid, args))
  {
    hide FlipInv, IsValidName, InitQuests;
    if DoCreate(s, sid, args) != s {
      FlipsUpdate(s, DoCreate(s, sid, args), sid);
    }
  }

  lemma LoginFlips(s: Server, sid: nat)
    requires FlipInv(s) && sid in s.sessions && s.sessions[sid].pc.Found? && s.sessions[sid].player == ""
    ensures FlipInv(DoLogin(s, sid))
  {
    hide FlipInv, InitQuests;
    FlipsUpdate(s, DoLogin(s, sid), sid);
  }

  lemma DisconnectFlips(s: Server, sid: nat)
    requires FlipInv(s) && LoginInv(s.sessions, s.world.players, s.owner) && sid in s.sessions && s.sessions[sid].pc.Idle?
    ensures FlipInv(DoDisconnect(s, sid))
  {
    hide FlipInv, LoginInv, Depart;
    var name := s.sessions[sid].player;
    DepartKeeps(s.world, name);
    forall t | t in s.sessions ensures SessionOk(s.sessions[t], t, s.world.players, s.owner) {
      SessionIsOk(s.sessions, s.world.players, s.owner, t);
    }
    FlipsUpdate(s, DoDisconnect(s, sid), sid);
  }
}
