/** The entities of the game world and the text helpers its handlers use to refer to them. */
module WorldModel {

  const START_ROOM: string := "loc.start"
  const IN_PROGRESS: string := "in_progress"
  const COMPLETED: string := "completed"

  datatype Room = Room(
    id: string, name: string, description: string,
    exits: map<string, string>, items: seq<string>, npcs: seq<string>)

  datatype Effect = NoEffect | Heal | Damage

  datatype Item = Item(id: string, name: string, description: string, effect: Effect, amount: int)

  datatype Npc = Npc(
    id: string, name: string, description: string, dialogue: seq<string>,
    hp: int, maxHp: int, counterMin: int, counterMax: int,
    bonusDialogue: seq<string>, unlockQuests: seq<string>)

  datatype QuestKind = Fetch | Defeat

  datatype Quest = Quest(
    id: string, name: string, description: string, kind: QuestKind,
    target: string, targets: seq<string>, reward: string)

  datatype PlayerState = PlayerState(
    id: string, race: string, attributes: string, room: string, inventory: seq<string>,
    hp: int, maxHp: int, lastTarget: string, quests: map<string, string>, progress: map<string, nat>)

  datatype World = World(
    rooms: map<string, Room>, items: map<string, Item>, npcs: map<string, Npc>,
    players: map<string, PlayerState>, quests: map<string, Quest>,
    playerGroup: map<string, string>, groups: map<string, seq<string>>,
    invites: multiset<(string, string)>)

  /** A new character, as the struct's default values and `cmd_create_character` leave it. */
  function NewCharacter(name: string, race: string, attributes: string): PlayerState {
    PlayerState(name, race, attributes, START_ROOM, [], 100, 100, "", map[], map[])
  }

  const MAX_NAME_LENGTH := 32

  predicate IsNameChar(c: char) {
    'a' <= c <= 'z' || 'A' <= c <= 'Z' || '0' <= c <= '9' || c == '_' || c == '-'
  }

  predicate IsValidName(name: string) {
    0 < |name| <= MAX_NAME_LENGTH && forall i :: 0 <= i < |name| ==> IsNameChar(name[i])
  }

  function Min(a: int, b: int): int { if a < b then a else b }

  function Max(a: int, b: int): int { if a < b then b else a }

  function ToLower(s: string): string {
    seq(|s|, i requires 0 <= i < |s| => if 'A' <= s[i] <= 'Z' then s[i] + (32 as char) else s[i])
  }

  /** The tokens from `start` on, joined by single spaces. */
  function JoinFrom(tokens: seq<string>, start: nat): string
    decreases |tokens| - start
  {
    if start >= |tokens| then ""
    else if start + 1 == |tokens| then tokens[start]
    else tokens[start] + " " + JoinFrom(tokens, start + 1)
  }

  /** The first candidate whose display name is `ref`, up to case; "" if there is none. */
  function FirstNamed(candidates: seq<string>, names: map<string, string>, ref: string): string {
    if candidates == [] then ""
    else if candidates[0] in names && ToLower(names[candidates[0]]) == ToLower(ref) then candidates[0]
    else FirstNamed(candidates[1..], names, ref)
  }

  /** An exact id wins over a display name; "" stands for "not found". */
  function Resolve(candidates: seq<string>, names: map<string, string>, ref: string): (id: string)
    ensures id != "" ==> id in candidates
    ensures ref in candidates ==> id == ref
  {
    if ref in candidates then ref
    else
      FirstNamedIsCandidate(candidates, names, ref);
      FirstNamed(candidates, names, ref)
  }

  lemma {:induction false} FirstNamedIsCandidate(candidates: seq<string>, names: map<string, string>, ref: string)
    ensures FirstNamed(candidates, names, ref) != "" ==> FirstNamed(candidates, names, ref) in candidates
  {
    if candidates == [] {
    } else {
      FirstNamedIsCandidate(candidates[1..], names, ref);
    }
  }

  function ItemNames(items: map<string, Item>): map<string, string> {
    map i | i in items :: items[i].name
  }

  function NpcNames(npcs: map<string, Npc>): map<string, string> {
    map n | n in npcs :: npcs[n].name
  }

  /** Every target of a defeat quest is dead; a target missing from the world counts as alive. */
  predicate AllDead(targets: seq<string>, npcs: map<string, Npc>) {
    forall n :: n in targets ==> n in npcs && npcs[n].hp <= 0
  }

  lemma StatusesDiffer()
    ensures IN_PROGRESS != COMPLETED
  {
    assert |IN_PROGRESS| != |COMPLETED|;
  }
}
