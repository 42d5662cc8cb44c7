/** Every state the server ever saves survives its file, so the step machine may keep character states
    instead of texts on its disk. */
module StoredStates {
  import opened Lists
  import opened WorldModel
  import opened WorldRules
  import opened Server
  import opened Invariants
  import opened Runs
  import opened CharacterText
  import opened CharacterStore

  /** No id of the world file needs escaping, and no NPC has more lines than an `int` counts. */
  ghost predicate CleanWorld(base: World) {
    && Clean("")
    && (forall r :: r in base.rooms ==> Clean(r))
    && (forall i :: i in base.items ==> Clean(i))
    && (forall n :: n in base.npcs ==> Clean(n) && FitsInt(AllLines(base.npcs[n])))
    && (forall q :: q in base.quests ==> Clean(q))
  }

  lemma GoodIsSavable(base: World, name: string, p: PlayerState)
    requires CleanWorld(base) && StateOk(base, name, p)
    ensures Savable(p)
  {
    hide Clean;
    StatusesAreClean();
    forall n | n in p.progress ensures Clean(n) && FitsInt(p.progress[n]) {
      assert p.progress[n] <= AllLines(base.npcs[n]);
    }
  }

  lemma StatusesAreClean()
    ensures Clean(IN_PROGRESS) && Clean(COMPLETED)
  {
  }

  /** In every run each character file can be read back, and gives the state that was saved; so does
      the file that saving an online player now would write. */
  lemma FilesCanBeReadBack(base: World, run: seq<Action>, n: string, questOrder: seq<string>, progressOrder: seq<string>)
    requires Loaded(base) && CleanWorld(base) && CanRun(Start(base), run)
    ensures
      var s := Exec(Start(base), run);
      && (n in s.disk && IsOrderOf(questOrder, s.disk[n].quests.Keys) && IsOrderOf(progressOrder, s.disk[n].progress.Keys) ==>
            LoadText(n, SavedText(s.disk[n], questOrder, progressOrder)) == Some(s.disk[n]))
      && (n in s.world.players && IsOrderOf(questOrder, s.world.players[n].quests.Keys)
          && IsOrderOf(progressOrder, s.world.players[n].progress.Keys) ==>
            LoadText(n, SavedText(s.world.players[n], questOrder, progressOrder)) == Some(s.world.players[n]))
  {
    hide Loaded, CleanWorld, Start, CanRun, Exec, WorldOk, PcsGood, Sound, LoginInv, NamesInv, FirstLoginInv, FlipInv, GroupsAgree,
         GroupLogInv, IsOrderOf, LoadText, SavedText, Savable;
    RunInv(base, run);
    var s := Exec(Start(base), run);
    if n in s.disk && IsOrderOf(questOrder, s.disk[n].quests.Keys) && IsOrderOf(progressOrder, s.disk[n].progress.Keys) {
      ReadsBack(base, n, s.disk[n], questOrder, progressOrder);
    }
    if n in s.world.players && IsOrderOf(questOrder, s.world.players[n].quests.Keys)
       && IsOrderOf(progressOrder, s.world.players[n].progress.Keys) {
      ReadsBack(base, n, s.world.players[n], questOrder, progressOrder);
    }
  }

  lemma ReadsBack(base: World, n: string, p: PlayerState, questOrder: seq<string>, progressOrder: seq<string>)
    requires CleanWorld(base) && StateOk(base, n, p)
    requires IsOrderOf(questOrder, p.quests.Keys) && IsOrderOf(progressOrder, p.progress.Keys)
    ensures LoadText(n, SavedText(p, questOrder, progressOrder)) == Some(p)
  {
    hide CleanWorld, IsOrderOf, LoadText, SavedText, Savable;
    GoodIsSavable(base, n, p);
    LoadInvertsSave(p, questOrder, progressOrder);
    assert p.id == n;
  }
}
