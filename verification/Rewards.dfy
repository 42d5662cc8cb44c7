/** What completing quests gives a player, rewards included: the two passes do to each player the same as going
    once through the quests that are due. */
module Rewards {
  import opened Lists
  import opened WorldModel
  import opened Sections
  import opened Completions

  /** One quest: completed if it is in `done` and open. */
  function SettledOne(p: PlayerState, quests: map<string, Quest>, done: set<string>, q: string): PlayerState {
    if q in done && q in quests && IsOpen(p, q) then Complete(p, q, quests[q].reward) else p
  }

  /** One player going once through the quests in `order`. */
  function Settled(p: PlayerState, quests: map<string, Quest>, done: set<string>, order: seq<string>): PlayerState
    decreases |order|
  {
    if order == [] then p else Settled(SettledOne(p, quests, done, order[0]), quests, done, order[1..])
  }

  /** Which quests a pick-up and a kill are about. */
  lemma DoneMeans(quests: map<string, Quest>, npcs: map<string, Npc>, id: string, q: string)
    ensures q in FetchedBy(quests, id) <==> q in quests && quests[q].kind == Fetch && quests[q].target == id
    ensures q in ClearedBy(quests, npcs, id) <==>
              && q in quests && quests[q].kind == Defeat && id in quests[q].targets
              && forall n :: n in quests[q].targets ==> n in npcs && npcs[n].hp <= 0
  {
  }

  /** The quests in `order` that are due: in `done` and open. */
  predicate Due(p: PlayerState, quests: map<string, Quest>, done: set<string>, q: string) {
    q in done && q in quests && q in p.quests && p.quests[q] == "in_progress"
  }

  function Bounty(p: PlayerState, quests: map<string, Quest>, done: set<string>, q: string): seq<string> {
    if Due(p, quests, done, q) && quests[q].reward != "" then [quests[q].reward] else []
  }

  /** The rewards of the quests that are due, one each, in order. */
  function Handed(p: PlayerState, quests: map<string, Quest>, done: set<string>, order: seq<string>): seq<string>
    decreases |order|
  {
    if order == [] then [] else Bounty(p, quests, done, order[0]) + Handed(p, quests, done, order[1..])
  }

  lemma SettledOneMeans(p: PlayerState, quests: map<string, Quest>, done: set<string>, q: string)
    ensures
      var p' := SettledOne(p, quests, done, q);
      && p' == p.(quests := p'.quests, inventory := p.inventory + Bounty(p, quests, done, q))
      && p'.quests.Keys == p.quests.Keys
      && (forall x :: x in p.quests ==> p'.quests[x] == if x == q && Due(p, quests, done, x) then "completed" else p.quests[x])
      && (forall x :: x != q ==> (Due(p', quests, done, x) <==> Due(p, quests, done, x)))
  {
  }

  lemma {:induction false} SameHanded(p: PlayerState, p': PlayerState, quests: map<string, Quest>, done: set<string>, order: seq<string>)
    requires forall q :: q in order ==> (Due(p, quests, done, q) <==> Due(p', quests, done, q))
    ensures Handed(p, quests, done, order) == Handed(p', quests, done, order)
    decreases |order|
  {
    hide Due;
    if order != [] {
      assert order == [order[0]] + order[1..];
      SameHanded(p, p', quests, done, order[1..]);
    }
  }

  /** Exactly the quests that are due become completed, each reward goes once to the end of the bag, and nothing
      else about the player changes. */
  lemma {:induction false} SettledMeans(p: PlayerState, quests: map<string, Quest>, done: set<string>, order: seq<string>)
    requires NoDuplicates(order)
    ensures
      var p' := Settled(p, quests, done, order);
      && p' == p.(quests := p'.quests, inventory := p'.inventory) && p'.quests.Keys == p.quests.Keys
      && (forall q :: q in p.quests ==>
            p'.quests[q] == if q in order && Due(p, quests, done, q) then "completed" else p.quests[q])
      && p'.inventory == p.inventory + Handed(p, quests, done, order)
    decreases |order|
  {
    hide SettledOne, Bounty, Due;
    if order != [] {
      var q, rest := order[0], order[1..];
      assert order == [q] + rest && q !in rest;
      var p1 := SettledOne(p, quests, done, q);
      SettledOneMeans(p, quests, done, q);
      SameHanded(p, p1, quests, done, rest);
      SettledMeans(p1, quests, done, rest);
      assert Handed(p, quests, done, order) == Bounty(p, quests, done, q) + Handed(p, quests, done, rest);
    } else {
      assert p.inventory + Handed(p, quests, done, order) == p.inventory;
    }
  }

  /** The pass over the fetch quests is this for their taker. */
  lemma {:induction false} FetchIsSettled(p: PlayerState, quests: map<string, Quest>, item: string, order: seq<string>)
    ensures FetchPass(p, quests, item, order) == Settled(p, quests, FetchedBy(quests, item), order)
    decreases |order|
  {
    hide Complete, IsOpen;
    if order != [] {
      var q := order[0];
      var p1 := if q in FetchedBy(quests, item) && q in quests && IsOpen(p, q) then Complete(p, q, quests[q].reward) else p;
      FetchIsSettled(p1, quests, item, order[1..]);
    }
  }

  // ---- the pass after a kill -----------------------------------------------------------------

  lemma {:induction false} FlipsOne(pass: Pass, q: string, reward: string, order: seq<string>, pid: string)
    requires NoDuplicates(order) && pid in pass.players
    ensures
      var players, p := FlipPlayers(pass, q, reward, order).players, pass.players[pid];
      && players.Keys == pass.players.Keys
      && players[pid] == if pid in order && IsOpen(p, q) then Complete(p, q, reward) else p
    decreases |order|
  {
    hide Complete, IsOpen;
    if order != [] {
      assert order == [order[0]] + order[1..] && order[0] !in order[1..];
      FlipsOne(FlipPlayer(pass, q, reward, order[0]), q, reward, order[1..], pid);
    }
  }

  /** The pass over all players is this for each of them. */
  lemma {:induction false} DefeatIsSettled(
    pass: Pass, quests: map<string, Quest>, npcs: map<string, Npc>, npc: string,
    questOrder: seq<string>, playerOrder: seq<string>, pid: string)
    requires NoDuplicates(playerOrder) && pid in playerOrder && pid in pass.players
    ensures
      var players := DefeatPass(pass, quests, npcs, npc, questOrder, playerOrder).players;
      && players.Keys == pass.players.Keys
      && players[pid] == Settled(pass.players[pid], quests, ClearedBy(quests, npcs, npc), questOrder)
    decreases |questOrder|
  {
    hide Complete, IsOpen, FlipPlayers, AllDead;
    if questOrder != [] {
      var q := questOrder[0];
      var next := DefeatOne(pass, quests, npcs, npc, q, playerOrder);
      if Cleared(quests, npcs, npc, q) {
        FlipsOne(pass, q, quests[q].reward, playerOrder, pid);
      }
      DefeatIsSettled(next, quests, npcs, npc, questOrder[1..], playerOrder, pid);
    }
  }

  /** After TAKE: every open fetch quest for the item is completed, and its reward is in the bag. */
  lemma TakingGives(w: World, pid: string, room: string, item: string, order: seq<string>)
    requires pid in w.players && IsOrderOf(order, w.quests.Keys)
    ensures
      var o, p := OnItemTaken(w, pid, room, item, order), w.players[pid];
      && o.Outcome? && pid in o.world.players && o.world == w.(players := w.players[pid := o.world.players[pid]])
      && var p' := o.world.players[pid];
         && p' == p.(quests := p'.quests, inventory := p.inventory + Handed(p, w.quests, FetchedBy(w.quests, item), order))
         && p'.quests.Keys == p.quests.Keys
         && (forall q :: q in p.quests ==>
               p'.quests[q] == if Due(p, w.quests, FetchedBy(w.quests, item), q) then "completed" else p.quests[q])
  {
    hide FetchPass, Settled, FetchedBy, Handed;
    FetchIsSettled(w.players[pid], w.quests, item, order);
    SettledMeans(w.players[pid], w.quests, FetchedBy(w.quests, item), order);
    if FetchPass(w.players[pid], w.quests, item, order) == w.players[pid] {
      assert w.players[pid := w.players[pid]] == w.players;
    }
  }

  /** After a kill: for every player, every open quest it cleared is completed, and its reward is in the bag. */
  lemma KillingGives(w: World, room: string, npc: string, questOrder: seq<string>, playerOrder: seq<string>, pid: string)
    requires pid in w.players && IsOrderOf(questOrder, w.quests.Keys) && IsOrderOf(playerOrder, w.players.Keys)
    ensures
      var o, p, done := OnNpcDefeated(w, room, npc, questOrder, playerOrder), w.players[pid], ClearedBy(w.quests, w.npcs, npc);
      && o.Outcome? && o.world == w.(players := o.world.players) && o.world.players.Keys == w.players.Keys
      && var p' := o.world.players[pid];
         && p' == p.(quests := p'.quests, inventory := p.inventory + Handed(p, w.quests, done, questOrder))
         && p'.quests.Keys == p.quests.Keys
         && (forall q :: q in p.quests ==> p'.quests[q] == if Due(p, w.quests, done, q) then "completed" else p.quests[q])
  {
    hide DefeatPass, Settled, ClearedBy, Handed;
    DefeatIsSettled(Pass(w.players, []), w.quests, w.npcs, npc, questOrder, playerOrder, pid);
    SettledMeans(w.players[pid], w.quests, ClearedBy(w.quests, w.npcs, npc), questOrder);
  }
}
