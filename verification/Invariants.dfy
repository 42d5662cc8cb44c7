/** The invariants of every interleaved run, one predicate per concern. */
module Invariants {
  import opened Lists
  import opened WorldModel
  import opened Sections
  import opened WorldRules
  import opened Server

  // ---- character states ----------------------------------------------------------------------

  ghost predicate Good(base: World, npcs: map<string, Npc>, name: string, p: PlayerState) {
    StateOk(base, name, p) && Sound(base.quests, npcs, p)
  }

  ghost predicate PlayersGood(base: World, npcs: map<string, Npc>, players: map<string, PlayerState>) {
    forall p {:trigger players[p]} :: p in players ==> Good(base, npcs, p, players[p])
  }

  ghost predicate SavesGood(base: World, npcs: map<string, Npc>, saves: seq<PlayerState>) {
    forall i {:trigger saves[i]} :: 0 <= i < |saves| ==> Good(base, npcs, saves[i].id, saves[i])
  }

  /** The character states a thread holds in its local variables are good too. */
  ghost predicate PcGood(base: World, npcs: map<string, Npc>, pc: Pc) {
    match pc
    case Found(name, state) => Good(base, npcs, name, state)
    case Saving(saves, _) => SavesGood(base, npcs, saves)
    case Leaving(saves) => SavesGood(base, npcs, saves)
    case _ => true
  }

  ghost predicate PcsGood(base: World, npcs: map<string, Npc>, sessions: map<nat, Session>) {
    forall sid {:trigger sessions[sid]} :: sid in sessions ==> PcGood(base, npcs, sessions[sid].pc)
  }

  ghost predicate StatesInv(base: World, s: Server) {
    && PlayersGood(base, s.world.npcs, s.world.players)
    && PlayersGood(base, s.world.npcs, s.disk)
    && PcsGood(base, s.world.npcs, s.sessions)
  }

  // ---- sessions and players ------------------------------------------------------------------

  predicate Live(session: Session) {
    session.player != "" && !session.pc.Leaving? && !session.pc.Closed?
  }

  /** `owner` is a bijection between the online players and the live sessions, and each live session
      knows its player's room. */
  ghost predicate LoginInv(sessions: map<nat, Session>, players: map<string, PlayerState>, owner: map<string, nat>) {
    && owner.Keys == players.Keys
    && "" !in players
    && (forall p {:trigger owner[p]} :: p in owner ==>
          owner[p] in sessions && Live(sessions[owner[p]]) && sessions[owner[p]].player == p)
    && (forall sid {:trigger sessions[sid]} :: sid in sessions ==> SessionOk(sessions[sid], sid, players, owner))
  }

  ghost predicate SessionOk(session: Session, sid: nat, players: map<string, PlayerState>, owner: map<string, nat>) {
    && (Live(session) ==>
          && session.player in owner && owner[session.player] == sid
          && session.player in players && session.room == players[session.player].room)
    && (session.pc.Seeking? || session.pc.Found? ==> session.player == "" && session.pc.name != "")
    && (session.pc.Saving? ==> session.player != "")
  }

  // ---- names ---------------------------------------------------------------------------------

  function PendingSaves(pc: Pc): seq<PlayerState> {
    if pc.Saving? || pc.Leaving? then pc.saves else []
  }

  predicate Saves(pc: Pc, name: string) {
    exists i :: 0 <= i < |PendingSaves(pc)| && PendingSaves(pc)[i].id == name
  }

  /** A created name is in memory or on disk, and nothing else is; a name that is only in memory is
      still being saved by the thread that created it; no name is created twice. */
  ghost predicate NamesInv(s: Server) {
    && (forall n :: n in s.created <==> n in s.world.players || n in s.disk)
    && (forall n :: s.created[n] <= 1)
    && (forall n {:trigger n in s.disk} :: n in s.world.players && n !in s.disk ==>
          n in s.owner && s.owner[n] in s.sessions && s.sessions[s.owner[n]].pc.Saving? && Saves(s.sessions[s.owner[n]].pc, n))
    && (forall sid {:trigger s.sessions[sid]} :: sid in s.sessions ==> PcNamed(s.sessions[sid].pc, s.created, s.disk))
  }

  ghost predicate PcNamed(pc: Pc, created: multiset<string>, disk: map<string, PlayerState>) {
    && (pc.Found? ==> pc.name in disk)
    && (forall i {:trigger PendingSaves(pc)[i]} :: 0 <= i < |PendingSaves(pc)| ==> PendingSaves(pc)[i].id in created)
  }

  // ---- quests --------------------------------------------------------------------------------

  /** A kill of one of the quest's targets is between its critical section and `on_npc_defeated`. */
  ghost predicate KillPending(sessions: map<nat, Session>, targets: seq<string>) {
    exists sid :: sid in sessions && Kills(sessions[sid].pc, targets)
  }

  predicate Kills(pc: Pc, targets: seq<string>) {
    pc.Saving? && pc.follow.Defeated? && pc.follow.npc in targets
  }

  /** In the login that created the character a cleared defeat quest is completed, or about to be, unless a
      target of it could die in a room with an empty id. */
  ghost predicate FirstLoginInv(base: World, s: Server) {
    && s.firstLogin <= s.world.players.Keys
    && forall p, q {:trigger s.world.players[p].quests[q]} ::
         p in s.firstLogin && p in s.world.players && q in base.quests && q in s.world.players[p].quests
         && AlreadyDone(base.quests[q], s.world.npcs)
         ==> || s.world.players[p].quests[q] == COMPLETED || KillPending(s.sessions, base.quests[q].targets)
             || StandsNowhere(base, base.quests[q])
  }

  /** Each (login, quest) completes at most once; in a live login it then stays completed. */
  ghost predicate FlipInv(s: Server) {
    forall sid, q {:trigger s.flips[(sid, q)]} ::
      && s.flips[(sid, q)] <= 1
      && (s.flips[(sid, q)] == 1 ==>
            && sid in s.sessions && s.sessions[sid].player != ""
            && (Live(s.sessions[sid]) ==> IsCompleted(s.world.players, s.sessions[sid].player, q)))
  }

  ghost predicate IsCompleted(players: map<string, PlayerState>, p: string, q: string) {
    p in players && q in players[p].quests && players[p].quests[q] == COMPLETED
  }

  // ---- groups --------------------------------------------------------------------------------

  /** `groups` and `player_group` describe the same membership, without repetitions, empty groups or
      offline members. */
  ghost predicate GroupsAgree(players: map<string, PlayerState>, playerGroup: map<string, string>, groups: map<string, seq<string>>) {
    && (forall g {:trigger groups[g]} :: g in groups ==> g != "" && groups[g] != [] && NoDuplicates(groups[g]))
    && (forall g, p {:trigger p in groups[g]} :: g in groups && p in groups[g] ==> GroupOf(playerGroup, p) == g)
    && (forall p {:trigger GroupOf(playerGroup, p)} :: GroupOf(playerGroup, p) != "" ==>
          p in players && GroupOf(playerGroup, p) in groups && p in groups[GroupOf(playerGroup, p)])
  }

  /** Invites issued = accepted + pending, all issued by members; every entry into a group was a founding or
      an accepted invite. */
  ghost predicate GroupLogInv(w: World, log: GroupLog) {
    && log.issued == log.accepted + w.invites
    && log.byMembers == log.issued
    && log.entered <= log.founded + log.accepted
    && (forall e {:trigger w.invites[e]} :: e in w.invites ==> e.1 != "")
  }

  // ---- all together --------------------------------------------------------------------------

  ghost predicate Inv(base: World, s: Server) {
    && !s.threw
    && WorldOk(base, s.world)
    && StatesInv(base, s)
    && LoginInv(s.sessions, s.world.players, s.owner)
    && NamesInv(s)
    && FirstLoginInv(base, s)
    && FlipInv(s)
    && GroupsAgree(s.world.players, s.world.playerGroup, s.world.groups)
    && GroupLogInv(s.world, s.groupLog)
  }
}
