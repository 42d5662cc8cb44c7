# TAP42: server and client relay, verified model

TAP42 is a multi-user dungeon: a C++ server with one thread per client over one shared world, a hand-written JSON parser,
one file per character, and a polling client. This project models its logic in Dafny and proves what it is meant to
guarantee. `dafny verify dfyconfig.toml` checks everything.

## What is modelled

- **The world as a step machine** (`WorldModel`, `Sections`, `Server`). Each critical section of the world mutex, each
  character-file read and each save is one step, and the steps of all sessions interleave freely. `Sections` says what each
  handler does in one section, `LiveWorld` does it by updating fields in place and is proved to agree, `WorldRules` says what
  a loaded world guarantees, `Invariants` what every run keeps. `LiveSteps` shows that what the in-place sections leave is
  what the steps take over, `Records` that the counts kept along a run are what happened; `RunTheorems` states the results,
  `Lookups` those that need the loader's checks only. `Effects`, `Rewards` and `Memberships` say what each command does to
  the world in terms of the world before and after, without the functions of `Sections`, and `FetchTheorems` that whatever
  is fetched completes its quest. Dice rolls are arbitrary values within the declared ranges; hash-map
  iteration orders are arbitrary.
- **Command-atomic runs** (`Serial`, `SerialTheorems`): no command starts before the previous one with all its saves has
  finished. Here files and memory agree and items are conserved.
- **Rooms with an empty id** (`Nowhere`): the loader accepts them, MOVE and ATTACK take an empty room id for "nothing
  happened"; which promises fail there, and exactly when.
- **The loader** (`Loader`, `LoaderTheorems`, `WorldFiles`): its loops accept exactly the checked worlds, these suffice for
  the handlers, and every world can be written down and read back.
- **JSON** (`Json`, `JsonGrammar`, `JsonSound`, `JsonValues`): the parser object, the functions it computes, the exact language
  it accepts, and what its numbers and strings mean.
- **Character files** (`CharacterText`, `CharacterStore`, `CharacterFiles`, `SavedFiles`, `StoredStates`, `DirtyIds`,
  `SaveFiles`, `SaveSteps`): what saving prints, what the file says, for which states loading inverts it, the temporary-file protocol under crashes, and that
  it amounts to the atomic saves of the step machine.
- **The byte streams** (`SendAll`, `Wire`, `LineReader`, `Relay`, `UiStream`, `Feeding`): partial writes, sending against
  closing, framing, the relay's fixed buffers and the interface's message splitting.
- **Words and events** (`Common`, `Words`, `Events`) and **the abuse monitor** (`AbuseMonitor`).

Two granularities are used because the claims need them: disk and memory agree only between whole commands, as copies may
be saved out of order while several commands run.

## Assumptions

- About the world file, beyond the loader's checks (`WorldRules.Assumed`): no quest has a reward, every NPC stands in at most
  one room and starts with hp above 0, amounts are not negative, and counter ranges are ranges from 0 up;
  `LoaderTheorems.SmallWorldIsLoaded` shows a world that meets this. Lookups and logins do not depend on it. For reading
  files back also (`StoredStates.CleanWorld`): no id holds a quote or a backslash.
- Runs start with an empty character directory, and file writes succeed.
- Numbers are mathematical: JSON numbers are reals, hp and amounts do not overflow. Converting a number outside the range of
  `int` is undefined in the source; the round trip requires numbers to fit.
- A character is one byte; letters are the ASCII letters, as in the C locale.

## What the proofs found

- A player whose name starts with a digit is not announced properly: the client reads plain event data that starts with a
  digit as a number (`Events.PresenceNameSurvives`, both directions).
- A line of 1024 or more characters fills the interface's buffer; from then on it reads and shows nothing
  (`Feeding.FeedingSucceeds`, both directions, and `Feeding.StalledForGood`). A CHAT command alone may have 8192.
- When the server drops the connection in the middle of a line, the relay's notice is glued to the cut line and the interface
  does not see it, unless the relay's buffer happened to be too full for it; nor does it see it behind a line that is too long
  for its buffer (`Feeding.DisconnectionIsAnnounced`, both directions).
- Ids are saved without escaping: a state survives its file exactly if no id in it holds a quote or a backslash
  (`DirtyIds.SurvivesExactlyIfClean`), and a quote in the room's id can make the file unreadable (`DirtyIds.QuotedRoomIsLost`).
- A move into a room with an empty id is not saved and a kill by ATTACK there is not reported to the quest log. Files match memory,
  and cleared quests are completed, exactly where players cannot walk to such a room (`Nowhere.FilesMatchExactly`,
  `Nowhere.KillIsReportedExactly`, `Nowhere.ToldExactly`).
- A line longer than 8192 characters is accepted or refused depending on how the network cuts the stream
  (`LineReader.FramingIsChunkIndependent`, both directions).
- PROTOCOL.md promises one pending invite per player; the code keeps all of them in a multimap, and the model follows the code.
- The header of the abuse monitor says its connection counter is called from several threads; only the accept loop calls it.

## Model

| member | source | states |
|---|---|---|
| Lookups.LookupsNeverFail | server/src/commands/dispatcher.cpp:194-210 | On every world that passes the loader's checks, in every interleaved run, no `.at()` lookup of a handler fails; a live session's room is its player's room, that room exists, its NPCs and the player's items are known. |
| LoaderTheorems.AcceptedWorldsNeverThrow | server/src/world/loader.cpp:57-228 | Whatever file `load_world` accepts, no run over its world ever throws, and every live session knows its player's room: the loader's checks suffice for the handlers, without further assumptions. |
| Lookups.LoginIsExclusive | server/src/commands/dispatcher.cpp:109-160 | Live logged-in sessions and online players correspond one to one, over all interleavings of CONNECT, CREATE_CHARACTER and disconnect, on every accepted world. |
| RunTheorems.NamesAreCreatedOnce | server/src/commands/dispatcher.cpp:73-92 | At most one creation of a name ever succeeds, and a name was created exactly if it is now in memory or on disk. |
| RunTheorems.CompletedMeansCleared | server/src/commands/quest_commands.cpp:83-105 | A defeat quest marked completed, online or in a file, has all its targets dead. |
| RunTheorems.ClearedMeansCompleted | server/src/commands/quest_commands.cpp:38-48 | In the login that created the character, a cleared but open defeat quest has a kill of one of its targets between its critical section and `on_npc_defeated`, or a target that stands in a room with an empty id; otherwise completed and cleared are equivalent. |
| Nowhere.KillIsReportedExactly | server/src/commands/combat_commands.cpp:127-136 | An ATTACK that clears a quest leaves a report of a kill on its way to the quest log exactly if it did not happen in a room with an empty id, or another report was on its way already. |
| Nowhere.ToldExactly | server/src/commands/combat_commands.cpp:127-136 | For a defeat quest whose targets stand in one room under ids that can be typed: in every run first-login players have the cleared quest completed or on its way, exactly if that is not a room with an empty id that players can walk to. |
| RunTheorems.CompletesOncePerLogin | server/src/commands/quest_commands.cpp:94-103 | Each (login, quest) goes from in progress to completed at most once, and in a live login it then stays completed. |
| RunTheorems.LifeIsKept | server/src/commands/combat_commands.cpp:76-110 | Online players have 1 <= hp <= 100; NPC hp stays within its range; an NPC stands in the room it was placed in exactly while its hp is positive. |
| RunTheorems.NobodyIsToldTheyAreDead | server/src/commands/combat_commands.cpp:72-74 | The replies for dead players are unreachable. |
| RunTheorems.HpNeverRises | server/src/commands/combat_commands.cpp:84-86 | Between any two points of a run NPC hp only falls. |
| RunTheorems.GroupsAlwaysAgree | server/src/commands/group_commands.cpp:149-158 | `groups` and `player_group` describe one membership: mutual, without repetitions, empty groups or offline members. |
| RunTheorems.InvitesAreConserved | server/src/commands/group_commands.cpp:56-121 | In every run, per player and group: invites issued by successful INVITE commands = those used up by successful ACCEPT commands + those pending; every one was issued by someone who was in the group then; entries into the group never exceed foundings plus such invites. |
| GroupProof.InviterIsMember | server/src/commands/group_commands.cpp:56-68 | An invite is issued only by a member of its group, and only to an online player other than the inviter. |
| Runs.StepKeeps | server/src/world/world.hpp:90-110 | Every step of every thread (critical section, file read, save, login, logout) keeps the whole invariant of the server. |
| Runs.RunInv | server/src/world/world.hpp:90-110 | The invariant holds after every run from an empty character directory. |
| Completions.DefeatCompletes | server/src/commands/quest_commands.cpp:83-115 | Whatever the iteration order of the two maps, a kill completes exactly the open quests it cleared, for every player, and the newest copy queued for saving is each player's final state. |
| Completions.FetchCompletes | server/src/commands/quest_commands.cpp:50-72 | Taking an item completes exactly the open fetch quests for it, in any iteration order. |
| Commits.RunIsTame | server/src/commands/dispatcher.cpp:312-373 | What one critical section of any command may change: good states stay good, statuses only advance, hp only falls, queued saves are the players' new states. |
| Commits.FollowUpIsTame | server/src/commands/quest_commands.cpp:50-116 | The same for the second critical section after a kill or a pick-up. |
| Records.CompletionsAreCounted | server/src/commands/quest_commands.cpp:94-103 | The count behind the at-most-once claim rises by one for exactly the (login, quest) pairs that complete in a section. |
| Records.CreationsAreCounted | server/src/commands/dispatcher.cpp:73-87 | A creation is counted exactly when it puts a new player into the world. |
| Records.InvitesAreCounted | server/src/commands/group_commands.cpp:56-68 | In any command, an invite is counted as issued exactly when the world gains it and as accepted exactly when the world loses it. |
| Records.EntriesAreCounted | server/src/commands/group_commands.cpp:95-121 | In any step, the memberships that begin are the ones counted as entered. |
| Records.OnlyUseConsumes | server/src/commands/item_commands.cpp:123-149 | Only USE consumes an item, and only one from the inventory that heals or harms. |
| FetchTheorems.TakeIsReported | server/src/commands/item_commands.cpp:31-49 | In every run a TAKE that succeeds leaves its item on its way to the quest log, in the session that took it. |
| FetchTheorems.CarriedMeansCompleted | server/src/commands/quest_commands.cpp:50-72 | In every interleaved run, a player of a first login who carries the target of a fetch quest has the quest completed or the item on its way to the quest log. |
| Memberships.MembershipsAreExplained | server/src/commands/group_commands.cpp:25-158 | At every step of every run, a membership ends exactly if the member leaves, accepts an invite to another group or disconnects, and begins exactly if the player founds the group or accepts an invite to it. |
| RunTheorems.LivePlayersArePresent | server/src/commands/dispatcher.cpp:194-210 | In every run, the player of a live session is alive in a room of the map, among living NPCs, with known items: what the laws of `Effects` ask for. |
| SerialTheorems.FilesMatchMemory | server/src/commands/quest_commands.cpp:110-115 | In command-atomic runs, between commands the file of every online player holds its state in memory, also after one kill completed several quests for several players; only the room can be stale, for a player in a room with an empty id. |
| Nowhere.FilesMatchExactly | server/src/commands/dispatcher.cpp:212-213 | Between commands every file is exactly its player's state, in all command-atomic runs, if and only if players cannot walk into a room with an empty id. |
| SerialTheorems.FinalSaveChangesNothing | server/src/commands/dispatcher.cpp:394-398 | The save of the disconnect handler writes what the file already holds, but for the room of a player who left from a room with an empty id. |
| SerialTheorems.ConnectRestoresLogout | server/src/commands/dispatcher.cpp:135-152 | A character who left is stored as it was when it left (from a room with an empty id: once the final save is done), and a later CONNECT restores exactly that state. |
| SerialTheorems.ItemsAreConserved | server/src/commands/item_commands.cpp:31-41 | Every placed item is in exactly one place: one room, one online inventory, one offline character's file, or used up. |
| SerialTheorems.ItemsAreListedOnce | server/src/commands/item_commands.cpp:70-79 | No inventory and no room ever lists an item twice. |
| SerialTheorems.ConsumedForGood | server/src/commands/item_commands.cpp:129-149 | An item consumed by USE never reappears. |
| FetchTheorems.FetchedMeansCompleted | server/src/commands/item_commands.cpp:31-49 | In every command-atomic run at rest, a player who carries the target of a fetch quest has it completed, online and in the file. |
| Effects.AttackMeans | server/src/commands/combat_commands.cpp:49-126 | The NPC loses exactly the damage if the blow hits, down to 0, and stays otherwise; a living NPC that counters takes exactly the counter damage from the player, who stands in loc.start with 50 hp if nothing is left; a dead NPC or one that misses leaves hp and room alone; a death is followed up. |
| Effects.UseMeans | server/src/commands/item_commands.cpp:94-173 | A healing item raises hp by its amount up to the maximum, a harming one takes its amount from the NPC named behind it, both are used up; every refusal with its reason, nothing changed. |
| Effects.TakeDropMean | server/src/commands/item_commands.cpp:13-81 | TAKE and DROP move exactly the item resolved between room and bag, TAKE with its follow-up; every refusal with its reason. |
| Effects.MoveMeans | server/src/commands/dispatcher.cpp:182-210 | MOVE puts the player where the exit leads and changes nothing else, or refuses. |
| Effects.TalksGoRound | server/src/commands/npc_commands.cpp:15-68 | After k talks to an NPC with n lines the index is k modulo n, and each line is said in its turn. |
| Effects.TalkMeans | server/src/commands/npc_commands.cpp:15-68 | One TALK is one such talk to the NPC resolved among those in the room. |
| Effects.ResolveMeans | server/src/commands/common.cpp:129-153 | A reference finds an id, or else the first candidate whose display name has the same letters up to case, or else nothing. |
| Effects.InitQuestsMeans | server/src/commands/quest_commands.cpp:38-48 | Only missing statuses are added: completed for defeat quests whose targets all exist and have no hp, otherwise in progress. |
| Effects.NewcomerMeans | server/src/commands/dispatcher.cpp:73-87 | A new character has the race and attributes asked for, 100 hp of 100, stands in loc.start with an empty bag, and its quests have their initial statuses; nobody else changes. |
| Effects.EntrantMeans | server/src/commands/dispatcher.cpp:140-154 | A loaded character enters as it is; quests it does not know get their initial statuses. |
| Effects.ValidNameMeans | server/src/world/character_store.cpp:56-62 | The characters of a name by their codes. |
| Rewards.TakingGives | server/src/commands/quest_commands.cpp:50-72 | After a pick-up exactly the open fetch quests for the item are completed and their rewards stand at the end of the bag, one each, in iteration order; nothing else changes. |
| Rewards.KillingGives | server/src/commands/quest_commands.cpp:83-105 | The same for every player after a kill, with the open quests it cleared. |
| Memberships.QuitMeans | server/src/commands/group_commands.cpp:130-158 | After GROUP LEAVE the player is in no list and has no group, every other player's group is unchanged, and a group is gone exactly if it had no other member. |
| Memberships.DepartMeans | server/src/commands/dispatcher.cpp:375-394 | The same after a disconnection, which also takes the player out of the world. |
| Memberships.AcceptMeans | server/src/commands/group_commands.cpp:84-121 | GROUP ACCEPT of a pending invite leaves the old group in the same way, joins the new one at the end of its list and uses up one invite; without one nothing changes, and which error is answered. |
| Memberships.CreateMeans | server/src/commands/group_commands.cpp:20-37 | GROUP CREATE founds a group with the player as its only member exactly if it has none and the name is free; each refusal. |
| Memberships.InviteMeans | server/src/commands/group_commands.cpp:44-71 | GROUP INVITE adds one invite exactly if a member names another online player; each refusal. |
| LiveSteps.GroupWordsMean | server/src/commands/group_commands.cpp:160-182 | Which word of GROUP is which command, JOIN being another word for ACCEPT. |
| LiveSteps.CreateAnswers | server/src/commands/dispatcher.cpp:47-87 | Exactly who may create a character, what the others are told, and what is saved. |
| LiveSteps.ConnectAnswers | server/src/commands/dispatcher.cpp:109-132 | Exactly who may go on to log in, and what the others are told. |
| LiveWorld.SharedWorld.Move | server/src/commands/dispatcher.cpp:182-210 | MOVE in place: the whole new world, reply, session room and queued save, for every input including the error branches. |
| LiveWorld.SharedWorld.Take | server/src/commands/item_commands.cpp:13-43 | TAKE in place: erase from the room, append to the inventory, or the error. |
| LiveWorld.SharedWorld.Drop | server/src/commands/item_commands.cpp:52-81 | DROP in place, the reverse of TAKE. |
| LiveWorld.SharedWorld.Use | server/src/commands/item_commands.cpp:94-173 | USE in place: healing, damage with a possible kill, each refusal, and what is left of the world when a lookup throws. |
| LiveWorld.SharedWorld.Attack | server/src/commands/combat_commands.cpp:49-126 | ATTACK in place: blow, counter-blow, death of the NPC, respawn of the player with 50 hp in the start room; nothing changes when a lookup throws. |
| LiveWorld.SharedWorld.Talk | server/src/commands/npc_commands.cpp:15-68 | TALK in place: the per-player dialogue index advances cyclically, over the bonus lines once unlocked. |
| LiveWorld.SharedWorld.InitPlayerQuests | server/src/commands/quest_commands.cpp:38-48 | The loop gives every missing quest its initial status and leaves the others alone. |
| LiveWorld.SharedWorld.AllTargetsDead | server/src/commands/quest_commands.cpp:19-26 | True exactly if every target exists and has no hp left. |
| LiveWorld.SharedWorld.OnItemTaken | server/src/commands/quest_commands.cpp:50-72 | The loop over the quests, for whichever order the map is iterated in. |
| LiveWorld.SharedWorld.OnNpcDefeated | server/src/commands/quest_commands.cpp:83-105 | The nested loops over quests and players, for whichever orders. |
| LiveWorld.SharedWorld.LeaveGroup | server/src/commands/group_commands.cpp:149-158 | Leaving in place: membership erased, an empty group dissolved. |
| LiveWorld.SharedWorld.Group | server/src/commands/group_commands.cpp:160-182 | GROUP and its subcommands in place, with the ordered multimap of invites kept sorted. |
| LiveWorld.SharedWorld.CreateCharacter | server/src/commands/dispatcher.cpp:47-87 | CREATE_CHARACTER up to the end of its critical section: every refusal, or the reservation of the name. |
| LiveWorld.SharedWorld.StartConnect | server/src/commands/dispatcher.cpp:109-132 | CONNECT up to the end of its first critical section: every refusal with its reason. |
| LiveWorld.SharedWorld.EnterWorld | server/src/commands/dispatcher.cpp:140-154 | The second section of CONNECT: refused if the name came online meanwhile, else the loaded state enters. |
| LiveWorld.SharedWorld.Disconnect | server/src/commands/dispatcher.cpp:375-394 | The critical section of the disconnect handler. |
| LiveSteps.CommandIsTheStep | server/src/commands/dispatcher.cpp:312-373 | What a section run in place leaves - world, session room, queued saves, follow-up, or the exception - is what the step of the machine takes over. |
| LiveSteps.FollowUpIsTheStep | server/src/commands/quest_commands.cpp:50-116 | The same for the section after a kill or a pick-up. |
| LiveSteps.CreateIsTheStep | server/src/commands/dispatcher.cpp:47-87 | The section of CREATE_CHARACTER is the creation step, refusals included. |
| LiveSteps.ConnectIsTheStep | server/src/commands/dispatcher.cpp:109-132 | The thread goes on to the character file exactly if the first section of CONNECT says so. |
| LiveSteps.LoginIsTheStep | server/src/commands/dispatcher.cpp:140-154 | The second section of CONNECT is the login step. |
| LiveSteps.DisconnectIsTheStep | server/src/commands/dispatcher.cpp:375-398 | The section of the disconnect handler is the logout step, with the states it returns for the final save. |
| Invites.Emplace | server/src/commands/group_commands.cpp:62-68 | Insertion into the multimap keeps it sorted and adds exactly the new entry. |
| Invites.FindInvite | server/src/commands/group_commands.cpp:95-121 | The search finds the invite of a player for a group exactly if there is one, and reports the end of the map exactly if no entry is for that player or a later name. |
| Invites.BeforeMeans | server/src/commands/group_commands.cpp:95-121 | The order of the multimap: a proper prefix first, otherwise the smaller character at the first difference. |
| Common.JoinTokens | server/src/commands/common.cpp:20-27 | The loop joins the tokens with single blanks. |
| Common.ResolveRef | server/src/commands/common.cpp:129-153 | An id match wins over any name match, the first name match over later ones, and nothing else is found. |
| Common.EraseAll | server/src/commands/group_commands.cpp:155-155 | erase/remove takes out every occurrence and keeps the order of the rest. |
| Common.JsonEscape | server/src/commands/common.cpp:36-45 | The loop escapes quotes, backslashes and line feeds, and nothing else. |
| Loader.LoadWorld | server/src/world/loader.cpp:57-228 | Loading succeeds exactly on texts that parse to an object with known effects and quest types whose references all resolve and whose items are placed once; then the world holds exactly the file's entities. |
| Loader.CheckRooms | server/src/world/loader.cpp:151-181 | The first validation loop with its growing set of placed items accepts exactly the worlds with known exits, items and NPCs and no item placed twice. |
| Loader.CheckQuests | server/src/world/loader.cpp:182-206 | The second validation loop accepts exactly the worlds whose quests refer to existing items and NPCs. |
| Loader.CheckUnlocks | server/src/world/loader.cpp:207-215 | The third validation loop accepts exactly the worlds whose unlock lists name existing quests. |
| Loader.PlaceItems | server/src/world/loader.cpp:161-172 | One room's items are placed exactly if all are known, new and different. |
| WorldFiles.NpcReadsBack | server/src/world/loader.cpp:96-115 | An NPC written down is read back with its maximum hp equal to its hp and its counter range, or 3 and 8 where its object has none. |
| WorldFiles.EmptyEntities | server/src/world/loader.cpp:80-149 | Fields that an object lacks are empty texts, zeros and empty lists; a quest without a type is refused. |
| WorldFiles.WorldReadsBack | server/src/world/loader.cpp:80-149 | Every world with NPCs in full health, written down entity by entity, is filled in again exactly, whatever was there before. |
| Json.Parser.Parse | client/shared/source/JsonParser.cpp:16-25 | The parser object computes the recursive descent, terminates on every text, stays inside it, and succeeds only at its end. |
| Json.Parser.Value | client/shared/source/JsonParser.cpp:35-50 | Dispatch on the first character; the position only grows. |
| Json.Parser.ObjectValue | client/shared/source/JsonParser.cpp:52-90 | The loop over the members; the last of equal keys wins. |
| Json.Parser.ArrayValue | client/shared/source/JsonParser.cpp:92-117 | The loop over the elements. |
| Json.Parser.StringValue | client/shared/source/JsonParser.cpp:119-155 | The loop over characters and escapes, with each error. |
| Json.Parser.NumberValue | client/shared/source/JsonParser.cpp:184-205 | The scan of the longest number-like text and its value. |
| JsonSound.ParserReadsTheGrammar | client/shared/source/JsonParser.cpp:16-205 | The parser accepts a text with a value exactly if the text is, between blanks, the text of a well-formed syntax tree with that value (sections 6 and 7 of RFC 8259 as far as the parser goes). |
| JsonSound.TextDeterminesValue | client/shared/source/JsonParser.cpp:16-205 | The accepted language is unambiguous: two trees with the same text have the same value. |
| JsonGrammar.ValueComplete | client/shared/source/JsonParser.cpp:35-50 | Every well-formed tree at any position of any text is read to its end with its value. |
| JsonSound.ValueSound | client/shared/source/JsonParser.cpp:35-50 | Everything that is read is blanks and the text of a well-formed tree with the returned value. |
| JsonGrammar.NumberComplete | client/shared/source/JsonParser.cpp:184-205 | Every numeral is scanned to its end and gets its value. |
| JsonGrammar.CharsComplete | client/shared/source/JsonParser.cpp:119-155 | Every sequence of plain characters and escapes is read back as what it stands for. |
| JsonValues.NumberMeans | client/shared/source/JsonParser.cpp:184-205 | The value v read from a numeral with digits w, n digits f behind the point and exponent e: abs(v) * 10^n = wf * 10^e, or abs(v) * 10^n * 10^-e = wf for a negative e, and v is below 0 only with the sign. |
| JsonValues.StringMeans | client/shared/source/JsonParser.cpp:119-155 | Each plain character of a string stands for itself and each escape for the character of its code; there is nothing else in the value. |
| JsonValues.EscapesMean | client/shared/source/JsonParser.cpp:131-141 | Exactly six characters may stand behind a backslash. |
| JsonValues.LiteralsMean | client/shared/source/JsonParser.cpp:157-182 | The values of the three words. |
| SavedFiles.LastOfEqualKeys | client/shared/source/JsonParser.cpp:76-76 | Of members with the same key an object has the last. |
| CharacterStore.LoadInvertsSave | server/src/world/character_store.cpp:66-122 | For every state whose ids need no escaping and whose numbers fit an int, loading the saved text gives the state back, whatever race and attributes hold and in whatever order the maps are iterated. |
| SavedFiles.SavedFileMeans | server/src/world/character_store.cpp:95-122 | What the saved file says under each of its keys, as parsed. |
| SavedFiles.EmptyFileLoads | server/src/world/character_store.cpp:79-92 | What a file without fields loads as. |
| SavedFiles.SizeTMeans | server/src/world/character_store.cpp:89-91 | A negative dialogue progress wraps around to a 64-bit size. |
| DirtyIds.SurvivesExactlyIfClean | server/src/world/character_store.cpp:95-122 | A state whose numbers fit an int survives its file exactly if no id in it - room, last target, items, quests, NPCs - holds a quote or a backslash. |
| DirtyIds.QuotedRoomIsLost | server/src/world/character_store.cpp:100-100 | A character in a room whose id holds a quote (and behind it something that cannot follow a string) is lost: its file does not parse. |
| DirtyIds.LostInRoom | server/src/world/character_store.cpp:100-100 | For instance a new character in a room called a"b. |
| StoredStates.FilesCanBeReadBack | server/src/world/character_store.cpp:66-122 | In every run, with clean ids in the world file, the file of every character and every online player's next file read back as exactly the state saved. |
| CharacterFiles.Render | server/src/world/character_store.cpp:95-122 | The loops of `save` print, for whichever iteration order, the text of the state's syntax tree. |
| CharacterFiles.Store.Save | server/src/world/character_store.cpp:95-140 | Saving changes the character's file and its temporary file and no other. |
| CharacterFiles.Store.Load | server/src/world/character_store.cpp:66-93 | Loading fails exactly on a missing or unparsable file and otherwise rebuilds the state in loops. |
| CharacterFiles.CheckName | server/src/world/character_store.cpp:56-62 | A name is valid exactly if it has 1 to 32 characters from letters, digits, `_` and `-`. |
| SaveFiles.PathsAreSeparate | server/src/world/character_store.cpp:31-33 | Final and temporary paths are injective in the name and never coincide. |
| SaveFiles.ValidNamesStayInside | server/src/world/character_store.cpp:31-33 | The files of a valid name lie directly in the directory. |
| SaveFiles.LockTable.LockFor | server/src/world/character_store.cpp:40-47 | One mutex per name: always the same for a name, never shared by two. |
| SaveFiles.FilesAreWhole | server/src/world/character_store.cpp:122-139 | With any interleaving of saves and crashes a character's file is absent or holds the complete text of one save of that name, the last one renamed. |
| SaveFiles.CrashLosesNoCharacter | server/src/world/character_store.cpp:122-139 | After any crash an existing character file loads and gives a state that was saved under that name. |
| SaveSteps.SavesAreAtomic | server/src/world/character_store.cpp:122-139 | With any interleaving of saving threads, any sizes of writes and any crashes, the files are those of atomic saves made one after the other in the order of the renames. |
| SaveSteps.RenameIsTheSave | server/src/world/character_store.cpp:136-139 | The rename puts exactly the saved state in place of the character's old one. |
| SaveSteps.SaveIsTheStep | server/src/world/character_store.cpp:95-139 | The one-step save of the step machine is such a rename. |
| SaveSteps.ReadIsTheStep | server/src/world/character_store.cpp:66-93 | The one-step read of the step machine is loading the file. |
| SendAll.SendEverything | server/src/network/platform_socket.cpp:56-76 | Given what the socket reports, exactly the characters it accepts before the first stop are sent, in order; if it offers enough of them with any number of interruptions between, everything is sent; less was sent only after an error, an empty acceptance or the end of the reports. |
| SendAll.Session.SendLine | server/src/network/session.cpp:28-38 | Nothing is sent once `connected` is false; otherwise exactly what the socket accepts of the line with its line feed, all of it if it offers enough before it stops. |
| Wire.WholeLinesOnly | server/src/network/session.cpp:34-39 | Whatever the interleaving of senders and partial writes, a peer without send errors has received whole lines - each the message of a different call to this session, with its line feed - and a prefix of the line of the thread holding the write mutex. |
| Wire.PeerReadsTheMessages | server/src/network/session.cpp:28-39 | Splitting what a peer received at line feeds gives back the messages submitted to its session, each once, in the order the calls finished. |
| Wire.SendsHitTheirSession | server/src/network/server.cpp:45-49 | A sending thread's descriptor is still open and still its session's, even where numbers are reused. |
| Wire.NothingAfterClose | server/src/network/server.cpp:45-49 | After the owner closed the descriptor the peer receives nothing more. |
| LineReader.FramingIsChunkIndependent | server/src/network/line_reader.cpp:20-44 | All divisions of a stream into chunks give the lines of the stream (section 9.2 of RFC 42TAP) exactly if every terminated line has at most 8192 characters. |
| LineReader.LongLinesAreLost | server/src/network/line_reader.cpp:23-26 | With a longer line, reading one character at a time loses lines. |
| LineReader.Session.ReadLine | server/src/network/line_reader.cpp:20-44 | One call returns what the specification says, terminates, and never buffers more than 12288 characters. |
| LineReader.StreamIsItsLines | server/src/network/line_reader.cpp:20-44 | The stream is its lines with a line feed behind each, and an unterminated rest; there are no other line feeds. |
| LineReader.LinesMean | server/src/network/line_reader.cpp:40-42 | A line handled is a line of the stream without the one carriage return it may end with. |
| LineReader.ShortLinesMean | server/src/network/line_reader.cpp:23-26 | The limit, line by line. |
| Relay.ClientHTTP.HandleDataFromServer | client/shared/source/ClientHTTP.cpp:177-192 | Characters read go behind the buffer; read = written ++ buffered; writability is requested exactly while something is buffered. |
| Relay.ClientHTTP.HandleDataToGame | client/shared/source/ClientHTTP.cpp:155-175 | Characters written leave the front by memmove; the same invariant. |
| Relay.ClientHTTP.HandleDataFromGame | client/shared/source/ClientHTTP.cpp:138-153 | The other direction, reading. |
| Relay.ClientHTTP.HandleDataToServer | client/shared/source/ClientHTTP.cpp:194-218 | The other direction, writing; a piece mentioning QUIT sets the flag. |
| Relay.ClientHTTP.HandleServerError | client/shared/source/ClientHTTP.cpp:238-256 | On a hang-up without QUIT the buffer ends with the notice, cut short first if it does not fit. |
| Relay.NoticeFits | client/shared/source/ClientHTTP.cpp:245-253 | The notice always fits, and where the content is cut the buffer is exactly full. |
| Relay.NoticeMeans | client/shared/source/ClientHTTP.cpp:245-253 | Up to 998 buffered characters are kept before the notice; of more, the first 997, closed with a line feed. |
| Relay.ContainsMeans | client/shared/source/ClientHTTP.cpp:194-218 | The search for QUIT finds it wherever it stands. |
| UiStream.LinesFitMeans | client/shared/source/UI.cpp:131-168 | Which streams fit, line by line. |
| UiStream.Interface.SplitIntoMessages | client/shared/source/UI.cpp:150-168 | Every complete line leaves the buffer, in order, and the non-empty ones are dispatched. |
| UiStream.Interface.ReadFromServer | client/shared/source/UI.cpp:131-148 | After each read everything dispatched is the messages of everything received, and the buffer is the unterminated rest. |
| UiStream.MessagesArriveInOrder | client/shared/source/ClientHTTP.cpp:138-218 | Chained with the relay: dispatched messages are the first non-empty lines of what the relay read from the server, and all of them once nothing is in between. |
| Feeding.FeedingSucceeds | client/shared/source/UI.cpp:131-148 | However the interface reads, the whole stream gets in exactly if every line is shorter than 1024 characters and the unterminated rest has at most 1024; otherwise every way of reading ends with a full buffer. |
| Feeding.WholeStreamIsDispatched | client/shared/source/UI.cpp:131-168 | Then exactly the messages of the stream have been dispatched. |
| Feeding.StalledForGood | client/shared/source/UI.cpp:131-148 | Once the buffer is full nothing more is read and nothing more dispatched. |
| Feeding.DisconnectionIsAnnounced | client/shared/source/ClientHTTP.cpp:242-255 | The interface, reading as far as it can, dispatches the relay's notice as a message of its own behind everything before it exactly if all lines relayed fit its buffer and the relay's buffer was cut or everything read from the server ended with a line feed. |
| Feeding.LongLineHidesNotice | client/shared/source/UI.cpp:131-148 | A case where a long line alone hides it. |
| UiStream.CutLineSwallowsNotice | client/shared/source/ClientHTTP.cpp:242-255 | A case where it does not. |
| Words.SplitWs | server/src/commands/common.cpp:12-18 | The tokenizer's loop returns the words of the line. |
| Words.CommandWordsAreTokens | server/src/commands/common.cpp:12-18 | Tokens are never empty and hold no whitespace. |
| Words.SplitOfJoin | server/src/commands/common.cpp:12-27 | Splitting a joined token list gives the list back. |
| Events.BuildChat | server/src/commands/dispatcher.cpp:265-277 | CHAT joins, escapes and embeds the words behind a valid scope. |
| Events.Message.Parse | client/shared/source/Message.cpp:200-232 | The client's event parser: words, known kinds, data as JSON or plain string. |
| Events.ChatTextSurvives | client/shared/source/Message.cpp:200-232 | For every text and every valid player the client stores exactly that player and that text. |
| Events.ChatWordsSurvive | server/src/commands/dispatcher.cpp:275-277 | From the words of a CHAT command to the words of the stored text nothing is lost. |
| Events.PresenceNameSurvives | client/shared/source/Message.cpp:228-232 | A plain player name arrives as that name exactly if it does not start with a digit. |
| Events.NumberNameIsLost | client/shared/source/Message.cpp:228-232 | A player called 42 is announced as a number. |
| Events.StatsArrive | client/shared/source/Message.cpp:210-216 | The number of players that the server announces is the number that the client stores. |
| AbuseMonitor.ReplayIsRecent | server/src/logging/abuse_monitor.cpp:19-33 | With a steady clock the deque is the filter of the whole history. |
| AbuseMonitor.CommandRateTracker.RecordAndCheckFlood | server/src/logging/abuse_monitor.cpp:19-24 | The flag is raised exactly if more than 10 commands of the history lie within the last second. |
| AbuseMonitor.ReconnectMonitor.RecordConnection | server/src/logging/abuse_monitor.cpp:26-33 | The same per address, with 5 connections in 10 seconds; other addresses are untouched. |
| AbuseMonitor.FloodMeans | server/src/logging/abuse_monitor.cpp:19-24 | A command floods exactly if the tenth before it in its session came within the last second. |
| AbuseMonitor.RapidMeans | server/src/logging/abuse_monitor.cpp:26-33 | A connection is too rapid exactly if the fifth before it from its address came within the last ten seconds. |

## Left out

- Reply texts and numeric error codes: the model keeps which error is answered, not its wording.
- LOOK, WHO, PROFILE, STATUS, INVENTORY, QUEST and QUESTS as texts: in the step machine they are one step that looks the player up and changes nothing.
- Broadcasts, the session registry, statistics and logging: they follow the critical sections and change nothing the properties speak of; the registry is updated in steps of its own and may disagree with the world meanwhile.
- The probability of hits: rolls are arbitrary.
- LiveWorld.SharedWorld.Group: GROUP ACCEPT compares an iterator it has just erased, which the language leaves undefined; the model has the search find an entry or not, and replies accordingly.
- Quest rewards over runs: `Rewards` says what each pass hands out, the theorems about runs assume there are none, because a reward is not taken from anywhere.
- RunTheorems.ClearedMeansCompleted: speaks of the login that created the character only; a stored quest status is not re-evaluated at a later login.
- SerialTheorems.FilesMatchMemory: holds for command-atomic runs only; with overlapping commands copies may be saved out of order.
- SaveFiles.FilesAreWhole: a crash of the process, not of the machine: what was written to a file is taken to survive.
- Nowhere.ToldExactly: speaks of quests whose targets stand in one room. For the others `RunTheorems.ClearedMeansCompleted` gives one direction, and `Nowhere.KillIsReportedExactly` both for each single kill; whether their last kill can happen in the room with the empty id depends on which rooms players can still walk to one after the other.
- JsonSound.ParserReadsTheGrammar: numbers are reals, without the rounding of doubles.
- Json.Parser.Parse: the wording of error messages is reduced to the kind of error and its position.
- Relay.ClientHTTP.HandleDataFromServer: the loops of the non-blocking read and write are their results; characters read by the same call that meets the end of file are dropped by the source and are not counted as read here.
- UiStream.MessagesArriveInOrder: one connection without end of file, and no exception during dispatch; the event masks after a reconnection are left out.
- LineReader.Session.ReadLine: a receive timeout and a closed connection are both the end of what is received.
- AbuseMonitor.CommandRateTracker.RecordAndCheckFlood: the clock reading is a parameter, required not to go back.
- Pairing of commands with responses in the interface, the ncurses and Qt windows, colours and resizing.
- Socket setup, poll itself, signals and argument parsing.
