/** What each command does to the world, said in terms of the world before and after. */
module Effects {
  import opened Lists
  import opened WorldModel
  import opened Sections

  // ---- references ----------------------------------------------------------------------------

  /** The same letter, but perhaps in the other case. */
  predicate SameLetter(c: char, d: char) {
    || c == d
    || ('a' <= c <= 'z' && 'A' <= d <= 'Z' && c as int - 'a' as int == d as int - 'A' as int)
    || ('A' <= c <= 'Z' && 'a' <= d <= 'z' && c as int - 'A' as int == d as int - 'a' as int)
  }

  predicate SameUpToCase(a: string, b: string) {
    |a| == |b| && forall i :: 0 <= i < |a| ==> SameLetter(a[i], b[i])
  }

  lemma LowerMeans(a: string, b: string)
    ensures ToLower(a) == ToLower(b) <==> SameUpToCase(a, b)
  {
    if ToLower(a) == ToLower(b) {
      assert |a| == |ToLower(a)| && |b| == |ToLower(b)|;
      forall i | 0 <= i < |a| ensures SameLetter(a[i], b[i]) {
        assert ToLower(a)[i] == ToLower(b)[i];
      }
    }
  }

  predicate IsNamed(names: map<string, string>, id: string, ref: string) {
    id in names && SameUpToCase(names[id], ref)
  }

  /** The reference is one of the ids; or it is none of them, and the result is the first one whose display name
      it is up to case; or it is no such name either. */
  lemma ResolveMeans(candidates: seq<string>, names: map<string, string>, ref: string)
    ensures
      var id := Resolve(candidates, names, ref);
      if ref in candidates then id == ref
      else
        || (exists k :: 0 <= k < |candidates| && candidates[k] == id && IsNamed(names, id, ref)
                        && forall j :: 0 <= j < k ==> !IsNamed(names, candidates[j], ref))
        || (id == "" && forall j :: 0 <= j < |candidates| ==> !IsNamed(names, candidates[j], ref))
  {
    if ref !in candidates {
      FirstNamedMeans(candidates, names, ref);
    }
  }

  lemma {:induction false} FirstNamedMeans(candidates: seq<string>, names: map<string, string>, ref: string)
    ensures
      var id := FirstNamed(candidates, names, ref);
      || (exists k :: 0 <= k < |candidates| && candidates[k] == id && IsNamed(names, id, ref)
                      && forall j :: 0 <= j < k ==> !IsNamed(names, candidates[j], ref))
      || (id == "" && forall j :: 0 <= j < |candidates| ==> !IsNamed(names, candidates[j], ref))
  {
    hide ToLower, SameUpToCase;
    if candidates != [] {
      if candidates[0] in names {
        LowerMeans(names[candidates[0]], ref);
      }
      if !IsNamed(names, candidates[0], ref) {
        FirstNamedMeans(candidates[1..], names, ref);
        var id := FirstNamed(candidates[1..], names, ref);
        if k :| 0 <= k < |candidates[1..]| && candidates[1..][k] == id && IsNamed(names, id, ref)
                && forall j :: 0 <= j < k ==> !IsNamed(names, candidates[1..][j], ref) {
          assert candidates[k + 1] == id;
          forall j | 0 <= j < k + 1 ensures !IsNamed(names, candidates[j], ref) {
            if j > 0 { assert candidates[j] == candidates[1..][j - 1]; }
          }
        } else {
          forall j | 0 <= j < |candidates| ensures !IsNamed(names, candidates[j], ref) {
            if j > 0 { assert candidates[j] == candidates[1..][j - 1]; }
          }
        }
      } else {
        assert candidates[0] == FirstNamed(candidates, names, ref);
      }
    }
  }

  // ---- where a handler finds the world -------------------------------------------------------

  /** The player is online and alive, in a room that exists, with NPCs and items that exist. */
  predicate Present(w: World, pid: string) {
    && pid in w.players && w.players[pid].hp > 0 && w.players[pid].room in w.rooms
    && (forall n :: n in w.rooms[w.players[pid].room].npcs ==> n in w.npcs && w.npcs[n].hp > 0)
    && (forall i :: i in w.players[pid].inventory ==> i in w.items)
  }

  function NpcHere(w: World, pid: string, ref: string): string
    requires Present(w, pid)
  {
    Resolve(w.rooms[w.players[pid].room].npcs, NpcNames(w.npcs), ref)
  }

  /** A refusal: an error, and nothing else. */
  predicate Refused(w: World, room: string, o: Outcome, kind: ErrorKind) {
    o == Outcome(w, room, Err(kind), [], Nothing, Stay)
  }

  /** One player is different, one NPC of its room has lost hp, and left the room if it died. */
  ghost predicate Struck(w: World, w': World, pid: string, p': PlayerState, npc: string, loss: int)
    requires Present(w, pid) && npc in w.npcs
  {
    var was, where := w.npcs[npc].hp, w.players[pid].room;
    var now := if loss < was then was - loss else 0;
    && w'.npcs == w.npcs[npc := w.npcs[npc].(hp := now)]
    && w'.rooms == (if now > 0 then w.rooms else w.rooms[where := w.rooms[where].(npcs := Without(w.rooms[where].npcs, npc))])
    && w' == w.(npcs := w'.npcs, rooms := w'.rooms, players := w.players[pid := p'])
  }

  // ---- combat --------------------------------------------------------------------------------

  /** ATTACK: the blow, if it hits, takes exactly its damage from the NPC, down to 0. Only an NPC that survives
      strikes back, and then takes exactly its damage from the player; a player left with nothing stands in the
      start room with 50 hp. Otherwise the player's hp and room stay. A kill is reported unless the room has an
      empty id. */
  lemma AttackMeans(w: World, pid: string, room: string, args: seq<string>, roll: Roll)
    requires Present(w, pid)
    ensures
      var o, p, npc := Attack(w, pid, room, args, roll), w.players[pid], NpcHere(w, pid, JoinFrom(args, 0));
      if args == [] then Refused(w, room, o, BadMessage)
      else if npc == "" then Refused(w, room, o, NpcNotFound)
      else
        && o.Outcome? && o.reply == Ok && npc in w.npcs && pid in o.world.players && npc in o.world.npcs
        && var p', loss := o.world.players[pid], if roll.hit then roll.damage else 0;
           var survives := loss < w.npcs[npc].hp;
           && Struck(w, o.world, pid, p', npc, loss)
           && p' == p.(hp := p'.hp, room := p'.room, lastTarget := npc)
           && (survives && roll.countered && roll.counterDamage < p.hp ==>
                 p'.hp == p.hp - roll.counterDamage && p'.room == p.room && o.room == room)
           && (survives && roll.countered && roll.counterDamage >= p.hp ==>
                 p'.hp == 50 && p'.room == "loc.start" && o.room == "loc.start")
           && (!survives || !roll.countered ==> p'.hp == p.hp && p'.room == p.room && o.room == room)
           && o.saves == [p'] && o.transfer == Stay
           && o.follow == (if survives || w.rooms[p.room].id == "" then Nothing else Defeated(npc))
  {
    hide Resolve, Without, NpcNames;
    var npc := NpcHere(w, pid, JoinFrom(args, 0));
    if args != [] && npc != "" {
      NpcIsHere(w, pid, JoinFrom(args, 0));
      HurtMeans(w, w.players[pid].room, npc, if roll.hit then roll.damage else 0);
    }
  }

  lemma NpcIsHere(w: World, pid: string, ref: string)
    requires Present(w, pid) && NpcHere(w, pid, ref) != ""
    ensures NpcHere(w, pid, ref) in w.npcs && w.npcs[NpcHere(w, pid, ref)].hp > 0
  {
  }

  lemma HurtMeans(w: World, where: string, npc: string, loss: int)
    requires where in w.rooms && npc in w.npcs && w.npcs[npc].hp > 0
    ensures
      var w', was := HurtNpc(w, where, npc, loss), w.npcs[npc].hp;
      var now := if loss < was then was - loss else 0;
      && w'.npcs == w.npcs[npc := w.npcs[npc].(hp := now)]
      && w'.rooms == (if now > 0 then w.rooms else w.rooms[where := w.rooms[where].(npcs := Without(w.rooms[where].npcs, npc))])
      && w' == w.(npcs := w'.npcs, rooms := w'.rooms)
  {
    hide Without;
  }

  /** The dice a run may show: 10 to 15 for the player, the NPC's own range for the NPC. */
  lemma RollsMean(roll: Roll, npc: Npc)
    ensures InRange(roll, npc) <==> 10 <= roll.damage <= 15 && npc.counterMin <= roll.counterDamage <= npc.counterMax
  {
  }

  // ---- items ---------------------------------------------------------------------------------

  function Carried(w: World, pid: string, ref: string): string
    requires Present(w, pid)
  {
    Resolve(w.players[pid].inventory, ItemNames(w.items), ref)
  }

  /** USE: a healing item is used up and adds its amount to the hp, up to the maximum; a harming item is used up and
      takes its amount from the hp of the NPC named, down to 0, and a kill is reported; nothing else is used up. */
  lemma UseMeans(w: World, pid: string, room: string, args: seq<string>)
    requires Present(w, pid)
    ensures
      var o, p := Use(w, pid, room, args), w.players[pid];
      if args == [] then Refused(w, room, o, BadMessage)
      else
        var item := Carried(w, pid, args[0]);
        if item == "" then Refused(w, room, o, ItemNotInInventory)
        else
          && item in w.items
          && var left := p.(inventory := Without(p.inventory, item));
             match w.items[item].effect
             case NoEffect => Refused(w, room, o, BadMessage)
             case Heal =>
               var healed := left.(hp := if p.hp + w.items[item].amount > p.maxHp then p.maxHp else p.hp + w.items[item].amount);
               o == Outcome(w.(players := w.players[pid := healed]), room, Ok, [healed], Nothing, Consumed(item))
             case Damage =>
               var npc := NpcHere(w, pid, JoinFrom(args, 1));
               if JoinFrom(args, 1) == "" then Refused(w, room, o, BadMessage)
               else if npc == "" then Refused(w, room, o, NpcNotFound)
               else
                 && npc in w.npcs && o.Outcome? && Struck(w, o.world, pid, left, npc, w.items[item].amount)
                 && o.room == room && o.reply == Ok && o.saves == [left] && o.transfer == Consumed(item)
                 && o.follow == if w.items[item].amount < w.npcs[npc].hp then Nothing else Defeated(npc)
  {
    hide Resolve, Without, NpcNames, ItemNames;
    if args != [] && Carried(w, pid, args[0]) != "" {
      var item, p := Carried(w, pid, args[0]), w.players[pid];
      ItemIsCarried(w, pid, args[0]);
      if w.items[item].effect.Damage? && JoinFrom(args, 1) != "" && NpcHere(w, pid, JoinFrom(args, 1)) != "" {
        var npc, left := NpcHere(w, pid, JoinFrom(args, 1)), p.(inventory := Without(p.inventory, item));
        NpcIsHere(w, pid, JoinFrom(args, 1));
        HurtMeans(WithPlayer(w, left, pid), p.room, npc, w.items[item].amount);
      }
    }
  }

  lemma ItemIsCarried(w: World, pid: string, ref: string)
    requires Present(w, pid) && Carried(w, pid, ref) != ""
    ensures Carried(w, pid, ref) in w.players[pid].inventory && Carried(w, pid, ref) in w.items
  {
  }

  /** TAKE and DROP move one item between the room's list and the bag, to the end of the other list, and are each
      other's reverse; TAKE reports the item to the quest log, DROP reports nothing. */
  lemma TakeDropMean(w: World, pid: string, room: string, args: seq<string>)
    requires Present(w, pid)
    ensures
      var o, p := Take(w, pid, room, args), w.players[pid];
      var here := w.rooms[p.room];
      var item := Resolve(here.items, ItemNames(w.items), JoinFrom(args, 0));
      if args == [] then Refused(w, room, o, BadMessage)
      else if item == "" then Refused(w, room, o, ItemNotFound)
      else
        && o.Outcome? && o.room == room && o.reply == Ok && o.follow == Taken(item)
        && Shifted(w, o, pid, p.inventory + [item], Without(here.items, item))
    ensures
      var o, p := Drop(w, pid, room, args), w.players[pid];
      var here := w.rooms[p.room];
      var item := Resolve(p.inventory, ItemNames(w.items), JoinFrom(args, 0));
      if args == [] then Refused(w, room, o, BadMessage)
      else if item == "" then Refused(w, room, o, ItemNotInInventory)
      else
        && o.Outcome? && o.room == room && o.reply == Ok && o.follow == Nothing
        && Shifted(w, o, pid, Without(p.inventory, item), here.items + [item])
  {
    hide Resolve, Without, ItemNames;
  }

  /** The player's bag and the items of its room are these now, everything else is as before, and the player is
      queued for saving. */
  predicate Shifted(w: World, o: Outcome, pid: string, bag: seq<string>, items: seq<string>)
    requires o.Outcome? && Present(w, pid)
  {
    var p := w.players[pid];
    && o.saves == [p.(inventory := bag)]
    && o.world == w.(players := w.players[pid := p.(inventory := bag)], rooms := w.rooms[p.room := w.rooms[p.room].(items := items)])
  }

  /** MOVE goes where the exit of that name leads, and says so to the session. */
  lemma MoveMeans(w: World, pid: string, room: string, args: seq<string>)
    requires Present(w, pid)
    ensures
      var o, p := Move(w, pid, room, args), w.players[pid];
      if args == [] then Refused(w, room, o, BadMessage)
      else if args[0] !in w.rooms[p.room].exits then Refused(w, room, o, NoExit)
      else
        && o.Outcome? && o.reply == Ok && o.room == w.rooms[p.room].exits[args[0]] && o.follow == Nothing
        && o.world == w.(players := w.players[pid := p.(room := o.room)])
        && o.saves == if o.room == "" then [] else [p.(room := o.room)]
  {
  }

  // ---- dialogue ------------------------------------------------------------------------------

  /** After `k` talks with an NPC. */
  function TalkedTo(npc: Npc, p: PlayerState, nid: string, k: nat): PlayerState {
    if k == 0 then p
    else
      var before := TalkedTo(npc, p, nid, k - 1);
      before.(progress := before.progress[nid := NextProgress(npc, before, nid)])
  }

  /** How many lines an NPC says to a player: the plain ones, and the bonus lines once every quest that unlocks
      them is completed, if there are such quests. */
  ghost predicate Says(npc: Npc, p: PlayerState, n: nat) {
    if npc.unlockQuests != [] && forall q :: q in npc.unlockQuests ==> q in p.quests && p.quests[q] == "completed"
    then n == |npc.dialogue| + |npc.bonusDialogue|
    else n == |npc.dialogue|
  }

  lemma LinesMean(npc: Npc, p: PlayerState)
    ensures Says(npc, p, LineCount(npc, p))
  {
  }

  /** Talks go through the lines in a circle: after `k` of them the index of a player who has not talked to the
      NPC before is `k` modulo the number of lines; without lines it stays 0. */
  lemma {:induction false} TalksGoRound(npc: Npc, p: PlayerState, nid: string, k: nat, n: nat)
    requires nid !in p.progress && Says(npc, p, n) && k > 0
    ensures
      var p' := TalkedTo(npc, p, nid, k);
      p' == p.(progress := p.progress[nid := if n == 0 then 0 else k % n])
  {
    hide BonusUnlocked;
    LinesMean(npc, p);
    if k > 1 {
      TalksGoRound(npc, p, nid, k - 1, n);
      SameLines(npc, p, TalkedTo(npc, p, nid, k - 1));
      if n > 0 { NextRound(k, n); }
      assert TalkedTo(npc, p, nid, k - 1).progress[nid := if n == 0 then 0 else k % n] == p.progress[nid := if n == 0 then 0 else k % n];
    } else if n > 0 {
      NextRound(k, n);
    }
  }

  lemma SameLines(npc: Npc, p: PlayerState, p': PlayerState)
    requires p'.quests == p.quests
    ensures LineCount(npc, p') == LineCount(npc, p)
  {
  }

  lemma NextRound(k: nat, n: nat)
    requires k > 0 && n > 0
    ensures ((k - 1) % n % n + 1) % n == k % n
  {
    var q, r := (k - 1) / n, (k - 1) % n;
    Remainder(r, 0, n, r);
    if r + 1 == n {
      assert (q + 1) * n == q * n + n;
      Remainder(k, q + 1, n, 0);
      Remainder(r + 1, 1, n, 0);
    } else {
      Remainder(k, q, n, r + 1);
      Remainder(r + 1, 0, n, r + 1);
    }
  }

  lemma Remainder(x: nat, q: nat, n: nat, r: nat)
    requires r < n && x == q * n + r
    ensures x % n == r
  {
    var q', r' := x / n, x % n;
    if q < q' {
      Larger(q, q', n, r, r');
    } else if q' < q {
      Larger(q', q, n, r', r);
    }
  }

  lemma Larger(q: nat, q': nat, n: nat, r: nat, r': nat)
    requires q < q' && r < n
    ensures q * n + r < q' * n + r'
  {
    AtLeast(q' - q, n);
    assert (q' - q) * n == q' * n - q * n;
  }

  lemma AtLeast(a: nat, n: nat)
    requires a > 0
    ensures a * n >= n
  {
  }

  /** TALK is one such talk. */
  lemma TalkMeans(w: World, pid: string, room: string, args: seq<string>)
    requires Present(w, pid)
    ensures
      var o, p, npc := Talk(w, pid, room, args), w.players[pid], NpcHere(w, pid, JoinFrom(args, 0));
      if args == [] then Refused(w, room, o, BadMessage)
      else if npc == "" then Refused(w, room, o, NpcNotFound)
      else
        && npc in w.npcs
        && var p' := TalkedTo(w.npcs[npc], p, npc, 1);
           o == Outcome(w.(players := w.players[pid := p']), room, Ok, [p'], Nothing, Stay)
  {
    hide Resolve, NpcNames, NextProgress;
    if args != [] && NpcHere(w, pid, JoinFrom(args, 0)) != "" {
      NpcIsHere(w, pid, JoinFrom(args, 0));
      assert TalkedTo(w.npcs[NpcHere(w, pid, JoinFrom(args, 0))], w.players[pid], NpcHere(w, pid, JoinFrom(args, 0)), 0) == w.players[pid];
    }
  }

  // ---- names ---------------------------------------------------------------------------------

  /** The character with this code is a letter or a digit of ASCII, an underscore or a hyphen. */
  predicate IsPlain(code: int) {
    48 <= code <= 57 || 65 <= code <= 90 || 97 <= code <= 122 || code == 95 || code == 45
  }

  lemma ValidNameMeans(name: string)
    ensures IsValidName(name) <==> 1 <= |name| <= 32 && forall i :: 0 <= i < |name| ==> IsPlain(name[i] as int)
  {
    assert forall c: char :: IsNameChar(c) <==> IsPlain(c as int);
  }

  // ---- characters ----------------------------------------------------------------------------

  /** The statuses `has` are those of `had` and one for each quest without: completed if it is a defeat quest
      whose targets are all dead already, otherwise in progress. */
  ghost predicate Started(w: World, had: map<string, string>, has: map<string, string>) {
    && has.Keys == had.Keys + w.quests.Keys
    && (forall q :: q in had ==> has[q] == had[q])
    && (forall q :: q in w.quests && q !in had ==>
          has[q] ==
            if w.quests[q].kind == Defeat && forall n :: n in w.quests[q].targets ==> n in w.npcs && w.npcs[n].hp <= 0
            then "completed" else "in_progress")
  }

  lemma InitQuestsMeans(w: World, p: PlayerState)
    ensures InitQuests(w, p) == p.(quests := InitQuests(w, p).quests) && Started(w, p.quests, InitQuests(w, p).quests)
  {
  }

  /** A new character: the race and attributes asked for, the start room, full health, its quests, nothing else. */
  lemma NewcomerMeans(w: World, name: string, race: string, attributes: string)
    ensures
      var w' := Reserve(w, name, race, attributes);
      && name in w'.players && w' == w.(players := w.players[name := w'.players[name]])
      && var p := w'.players[name];
         && p.id == name && p.race == race && p.attributes == attributes && p.room == "loc.start" && p.hp == 100 && p.maxHp == 100
         && p.inventory == [] && p.lastTarget == "" && p.progress == map[] && Started(w, map[], p.quests)
  {
    hide InitQuests, Started;
    InitQuestsMeans(w, NewCharacter(name, race, attributes));
  }

  /** A loaded character enters as it is, but for statuses of quests it does not know. */
  lemma EntrantMeans(w: World, name: string, loaded: PlayerState)
    ensures
      var w' := Enter(w, name, loaded);
      && name in w'.players && w' == w.(players := w.players[name := w'.players[name]])
      && w'.players[name] == loaded.(quests := w'.players[name].quests) && Started(w, loaded.quests, w'.players[name].quests)
      && (w.quests.Keys <= loaded.quests.Keys ==> w'.players[name] == loaded)
  {
    hide InitQuests, AlreadyDone;
    InitQuestsMeans(w, loaded);
    if w.quests.Keys <= loaded.quests.Keys {
      assert InitQuests(w, loaded).quests == loaded.quests;
    }
  }
}
