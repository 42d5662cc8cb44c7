/** What the two quest-completing passes do, whatever the iteration order of the maps. */
module Completions {
  import opened Lists
  import opened WorldModel
  import opened Sections

  /** `p'` is `p` with some open quests, all of them in `done`, marked completed. */
  ghost predicate Advances(p: PlayerState, p': PlayerState, done: set<string>) {
    && p' == p.(quests := p'.quests)
    && p'.quests.Keys == p.quests.Keys
    && forall q {:trigger p'.quests[q]} :: q in p.quests ==>
         p'.quests[q] == p.quests[q] || (q in done && p.quests[q] == IN_PROGRESS && p'.quests[q] == COMPLETED)
  }

  /** The newest copy of `pid` among queued saves, or `was` if there is none. */
  function Newest(saves: seq<PlayerState>, pid: string, was: PlayerState): PlayerState
    decreases |saves|
  {
    if saves == [] then was
    else if saves[|saves| - 1].id == pid then saves[|saves| - 1]
    else Newest(saves[..|saves| - 1], pid, was)
  }

  lemma NewestAppend(saves: seq<PlayerState>, p: PlayerState, pid: string, was: PlayerState)
    ensures Newest(saves + [p], pid, was) == if p.id == pid then p else Newest(saves, pid, was)
  {
    assert (saves + [p])[..|saves|] == saves;
  }

  /** How far a pass has got: each player has advanced, and so has each queued copy; the newest copy
      of a player is the player's present state. */
  ghost predicate Progress(players: map<string, PlayerState>, pass: Pass, done: set<string>) {
    && pass.players.Keys == players.Keys
    && (forall p {:trigger pass.players[p]} :: p in players ==> Advances(players[p], pass.players[p], done))
    && (forall i {:trigger pass.saves[i]} :: 0 <= i < |pass.saves| ==>
          pass.saves[i].id in players && Advances(players[pass.saves[i].id], pass.saves[i], done))
    && (forall p {:trigger pass.players[p]} :: p in players ==> Newest(pass.saves, p, players[p]) == pass.players[p])
  }

  ghost predicate IdsMatch(players: map<string, PlayerState>) {
    forall p {:trigger players[p]} :: p in players ==> players[p].id == p
  }

  ghost predicate NoneOpen(players: map<string, PlayerState>, q: string) {
    forall p {:trigger players[p]} :: p in players ==> !IsOpen(players[p], q)
  }

  lemma AdvancesOn(p: PlayerState, p': PlayerState, q: string, done: set<string>)
    requires Advances(p, p', done) && IsOpen(p', q) && q in done
    ensures Advances(p, Complete(p', q, ""), done)
  {
    StatusesDiffer();
  }

  /** No status opens again. */
  ghost predicate StaysClosed(players: map<string, PlayerState>, players': map<string, PlayerState>) {
    && players'.Keys == players.Keys
    && forall p, q {:trigger IsOpen(players'[p], q)} :: p in players && IsOpen(players'[p], q) ==> IsOpen(players[p], q)
  }

  lemma FlipPlayerCloses(pass: Pass, q: string, pid: string)
    ensures StaysClosed(pass.players, FlipPlayer(pass, q, "", pid).players)
    ensures pid in pass.players ==> !IsOpen(FlipPlayer(pass, q, "", pid).players[pid], q)
  {
    StatusesDiffer();
  }

  lemma FlipPlayerProgress(players: map<string, PlayerState>, pass: Pass, q: string, pid: string, done: set<string>)
    requires Progress(players, pass, done) && IdsMatch(players) && q in done
    ensures Progress(players, FlipPlayer(pass, q, "", pid), done)
  {
    hide Advances;
    if pid in pass.players && IsOpen(pass.players[pid], q) {
      var p := Complete(pass.players[pid], q, "");
      AdvancesOn(players[pid], pass.players[pid], q, done);
      IdKept(players[pid], p, done);
      forall n | n in players
        ensures Newest(pass.saves + [p], n, players[n]) == if n == pid then p else pass.players[n]
      {
        NewestAppend(pass.saves, p, n, players[n]);
      }
    }
  }

  lemma IdKept(p: PlayerState, p': PlayerState, done: set<string>)
    requires Advances(p, p', done)
    ensures p'.id == p.id
  {
  }

  lemma ClosedTransitive(a: map<string, PlayerState>, b: map<string, PlayerState>, c: map<string, PlayerState>)
    requires StaysClosed(a, b) && StaysClosed(b, c)
    ensures StaysClosed(a, c)
  {
    hide IsOpen;
  }

  lemma {:induction false} FlipPlayersProgress(
    players: map<string, PlayerState>, pass: Pass, q: string, order: seq<string>, done: set<string>)
    requires Progress(players, pass, done) && IdsMatch(players) && q in done
    ensures Progress(players, FlipPlayers(pass, q, "", order), done)
    decreases |order|
  {
    hide Progress, IdsMatch;
    if order != [] {
      FlipPlayerProgress(players, pass, q, order[0], done);
      FlipPlayersProgress(players, FlipPlayer(pass, q, "", order[0]), q, order[1..], done);
    }
  }

  /** After the inner loop the quest is open for none of the players it visited. */
  lemma {:induction false} FlipPlayersCloses(pass: Pass, q: string, order: seq<string>)
    ensures StaysClosed(pass.players, FlipPlayers(pass, q, "", order).players)
    ensures forall p :: p in pass.players && p in order ==> !IsOpen(FlipPlayers(pass, q, "", order).players[p], q)
    decreases |order|
  {
    hide IsOpen, FlipPlayer;
    if order != [] {
      var next := FlipPlayer(pass, q, "", order[0]);
      FlipPlayerCloses(pass, q, order[0]);
      FlipPlayersCloses(next, q, order[1..]);
      ClosedTransitive(pass.players, next.players, FlipPlayers(next, q, "", order[1..]).players);
    }
  }

  // ---- the pass over the quests --------------------------------------------------------------

  /** The quests that the death of `npc` completes. */
  function ClearedBy(quests: map<string, Quest>, npcs: map<string, Npc>, npc: string): set<string> {
    set q | q in quests && Cleared(quests, npcs, npc, q)
  }

  lemma {:induction false} DefeatPassProgress(
    players: map<string, PlayerState>, pass: Pass, quests: map<string, Quest>, npcs: map<string, Npc>, npc: string,
    questOrder: seq<string>, playerOrder: seq<string>)
    requires Progress(players, pass, ClearedBy(quests, npcs, npc)) && IdsMatch(players)
    requires forall q :: q in quests ==> quests[q].reward == ""
    ensures Progress(players, DefeatPass(pass, quests, npcs, npc, questOrder, playerOrder), ClearedBy(quests, npcs, npc))
    decreases |questOrder|
  {
    hide Progress, IdsMatch, FlipPlayers;
    if questOrder != [] {
      var q := questOrder[0];
      if Cleared(quests, npcs, npc, q) {
        FlipPlayersProgress(players, pass, q, playerOrder, ClearedBy(quests, npcs, npc));
      }
      DefeatPassProgress(players, DefeatOne(pass, quests, npcs, npc, q, playerOrder), quests, npcs, npc, questOrder[1..], playerOrder);
    }
  }

  lemma {:induction false} DefeatPassCloses(
    pass: Pass, quests: map<string, Quest>, npcs: map<string, Npc>, npc: string,
    questOrder: seq<string>, playerOrder: seq<string>)
    requires forall q :: q in quests ==> quests[q].reward == ""
    ensures
      var players' := DefeatPass(pass, quests, npcs, npc, questOrder, playerOrder).players;
      && StaysClosed(pass.players, players')
      && forall p, q {:trigger IsOpen(players'[p], q)} ::
           p in pass.players && p in playerOrder && q in questOrder && Cleared(quests, npcs, npc, q) ==> !IsOpen(players'[p], q)
    decreases |questOrder|
  {
    hide IsOpen, Cleared, FlipPlayers;
    if questOrder == [] {
      NothingOpens(pass.players);
    } else {
      var q := questOrder[0];
      var next := DefeatOne(pass, quests, npcs, npc, q, playerOrder);
      DefeatOneCloses(pass, quests, npcs, npc, q, playerOrder);
      DefeatPassCloses(next, quests, npcs, npc, questOrder[1..], playerOrder);
      ClosedTransitive(pass.players, next.players, DefeatPass(next, quests, npcs, npc, questOrder[1..], playerOrder).players);
      assert questOrder == [q] + questOrder[1..];
    }
  }

  lemma NothingOpens(players: map<string, PlayerState>)
    ensures StaysClosed(players, players)
  {
  }

  lemma DefeatOneCloses(
    pass: Pass, quests: map<string, Quest>, npcs: map<string, Npc>, npc: string, q: string, playerOrder: seq<string>)
    requires forall q :: q in quests ==> quests[q].reward == ""
    ensures
      var players' := DefeatOne(pass, quests, npcs, npc, q, playerOrder).players;
      && StaysClosed(pass.players, players')
      && (Cleared(quests, npcs, npc, q) ==>
            forall p {:trigger players'[p]} :: p in pass.players && p in playerOrder ==> !IsOpen(players'[p], q))
  {
    hide IsOpen, FlipPlayers;
    NothingOpens(pass.players);
    if Cleared(quests, npcs, npc, q) {
      FlipPlayersCloses(pass, q, playerOrder);
    }
  }

  // ---- the result, without any order ---------------------------------------------------------

  /** `p` with every open quest of `done` marked completed. */
  function Finished(p: PlayerState, done: set<string>): PlayerState {
    p.(quests := map q | q in p.quests :: if q in done && p.quests[q] == IN_PROGRESS then COMPLETED else p.quests[q])
  }

  lemma AdvancedIsFinished(p: PlayerState, p': PlayerState, done: set<string>)
    requires Advances(p, p', done)
    requires forall q :: q in done ==> !IsOpen(p', q)
    ensures p' == Finished(p, done)
  {
    forall q | q in p.quests
      ensures p'.quests[q] == if q in done && p.quests[q] == IN_PROGRESS then COMPLETED else p.quests[q]
    {
      assert q in done ==> !IsOpen(p', q);
    }
    assert p'.quests == Finished(p, done).quests;
  }

  /** The outcome of `on_npc_defeated` does not depend on how the maps are iterated: every player
      gets every cleared quest, nothing else changes, and the newest queued copy of a player is
      the player's final state, however many quests the death completed. */
  lemma DefeatCompletes(
    w: World, room: string, npc: string, questOrder: seq<string>, playerOrder: seq<string>)
    requires IdsMatch(w.players) && (forall q :: q in w.quests ==> w.quests[q].reward == "")
    requires IsOrderOf(questOrder, w.quests.Keys) && IsOrderOf(playerOrder, w.players.Keys)
    ensures
      var o := OnNpcDefeated(w, room, npc, questOrder, playerOrder);
      var done := ClearedBy(w.quests, w.npcs, npc);
      && o.world == w.(players := map p | p in w.players :: Finished(w.players[p], done))
      && Progress(w.players, Pass(o.world.players, o.saves), done)
  {
    hide Advances, IsOpen, Cleared, Finished;
    var done := ClearedBy(w.quests, w.npcs, npc);
    var start := Pass(w.players, []);
    StartOfPass(w.players, done);
    DefeatPassProgress(w.players, start, w.quests, w.npcs, npc, questOrder, playerOrder);
    DefeatPassCloses(start, w.quests, w.npcs, npc, questOrder, playerOrder);
    var end := DefeatPass(start, w.quests, w.npcs, npc, questOrder, playerOrder);
    forall p | p in w.players ensures end.players[p] == Finished(w.players[p], done) {
      AdvancedIsFinished(w.players[p], end.players[p], done);
    }
    assert end.players == map p | p in w.players :: Finished(w.players[p], done);
  }

  lemma StartOfPass(players: map<string, PlayerState>, done: set<string>)
    ensures Progress(players, Pass(players, []), done)
  {
  }

  // ---- fetch quests ---------------------------------------------------------------------------

  /** The fetch quests that taking `item` completes. */
  function FetchedBy(quests: map<string, Quest>, item: string): set<string> {
    set q | q in quests && quests[q].kind.Fetch? && quests[q].target == item
  }

  lemma {:induction false} FetchPassAdvances(
    p: PlayerState, now: PlayerState, quests: map<string, Quest>, item: string, order: seq<string>)
    requires Advances(p, now, FetchedBy(quests, item))
    requires forall q :: q in quests ==> quests[q].reward == ""
    ensures Advances(p, FetchPass(now, quests, item, order), FetchedBy(quests, item))
    ensures forall q :: IsOpen(FetchPass(now, quests, item, order), q) ==> IsOpen(now, q)
    ensures forall q :: q in order && q in FetchedBy(quests, item) ==> !IsOpen(FetchPass(now, quests, item, order), q)
    decreases |order|
  {
    hide Advances;
    StatusesDiffer();
    if order != [] {
      var q := order[0];
      if q in FetchedBy(quests, item) && IsOpen(now, q) {
        AdvancesOn(p, now, q, FetchedBy(quests, item));
        FetchPassAdvances(p, Complete(now, q, ""), quests, item, order[1..]);
      } else {
        FetchPassAdvances(p, now, quests, item, order[1..]);
      }
      assert order == [q] + order[1..];
    }
  }

  /** Taking an item completes exactly the open fetch quests for it, in whatever order they are visited. */
  lemma FetchCompletes(p: PlayerState, quests: map<string, Quest>, item: string, order: seq<string>)
    requires (forall q :: q in quests ==> quests[q].reward == "") && IsOrderOf(order, quests.Keys)
    ensures FetchPass(p, quests, item, order) == Finished(p, FetchedBy(quests, item))
    ensures Advances(p, FetchPass(p, quests, item, order), FetchedBy(quests, item))
  {
    FetchPassAdvances(p, p, quests, item, order);
    AdvancedIsFinished(p, FetchPass(p, quests, item, order), FetchedBy(quests, item));
  }
}
