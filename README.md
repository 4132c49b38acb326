# StarGUI game core in Dafny

This project models the game-state core of the StarGUI text adventure:
- the world and entity model of `game.py`: planets, rooms, connections, NPCs, the player, and the `Game` class with its two-pass world load, room lookup, objective log, requirement check and scripted events;
- the action resolver of `game_engine.py` (class `GameEngine`), which the console loop and the GUI both drive.

Four modules:
- `Text` (`text.dfy`): Python's `str.strip()` with the `str.isspace` whitespace set, `str.lower()` on ASCII, and `str.join`.
- `Entities` (`entities.dfy`): name validation, `Room`, `Planet`, `Connection`, `Npc` and the `Player` class.
- `World` (`world.dfy`): the parsed world document, the load as a specification (`Load`) and as the imperative `Game.CreateGame`, the well-formedness that loading establishes (`Loaded`), and the rest of class `Game`.
- `Engine` (`engine.dfy`): the session as a value (`State`), one transition function per command (`MoveStep`, `TravelStep`, `PickupStep`, `KillStep`, `PlantStep`, `DropStep`, `InteractWith`), and the class `GameEngine`. Its methods are proved to follow those functions.

How the model is represented:
- Rooms live in one arena, `map<string, Room>`, keyed by their unique name.
- Planets, connections, NPCs and the player refer to rooms by that name. A room the source updates in place is here a replaced arena entry.
- Planets are a sequence in dictionary insertion order. Each planet holds its room names in insertion order.
- The player's inventory is a presence set, as the source's `{item: True}` dictionary is.
- Each command returns an `Outcome`: the tag of the message and the names it mentions, not its wording.

Where the code behaves differently from what a player might expect, the model follows the code:
- A successful `move` does not update the player's current planet (`game_engine.py:63`). Neither does the death teleport to "Ascend" (`game.py:369`). Only `travel` re-derives the planet.
- A move refused for requirements names `requirement[0]`, the first *listed* item, which the player may already hold (`game_engine.py:69`). It is not the first missing item. `Engine.RefusalNamesFirstRequirement` exhibits such a case.
- The engine's `plant` and `drop` test the room name case-insensitively. They do not use `Game.plant_c4` or `Game.drop_grenade`, which look the room up by its exact name and compare it with the current room. Both versions are modelled.
- The death teleport reads `rooms["Ascend"]`. In a world without that room the source raises a `KeyError` after the player has already entered the fatal room. The model reports this as `KeyErrorRaised`, with the state as far as the source got.

## Model

| member | source | states |
|---|---|---|
| `Text.StripNonEmptyIff` | game.py:24-27 | a string survives `strip()` exactly when it holds a non-whitespace character |
| `Entities.IsValidName` | game.py:24-27 | a name is valid iff it has a character outside Python's whitespace set |
| `Entities.NewPlanet` | game.py:75-83 | the `Planet` constructor succeeds iff the name is valid, giving a planet with no rooms |
| `Entities.Planet.AddRoom` | game.py:85-90 | a new room name is appended; a name already on the planet leaves it unchanged |
| `Entities.Room.AddConnection` | game.py:43-45 | the connection goes last; nothing else about the room changes |
| `Entities.RemoveFirst` | game.py:60-63 | an absent item leaves the list as it is; a present one makes it one shorter |
| `Entities.RemoveFirstCount` | game.py:60-63 | removal takes exactly one occurrence away: the multiset of items loses one copy of the item, if it had one |
| `Entities.RemoveFirstAt` | game.py:60-63 | the occurrence removed is the first one: the list is the part before it followed by the part after it |
| `Entities.FirstIndex` | game.py:60-63 | the position of the first occurrence of a present item |
| `Entities.Room.RemoveItem` | game.py:60-63 | a present item loses its first occurrence; an absent item leaves the room unchanged; nothing but the items changes |
| `Entities.Room.RemoveItemCount` | game.py:60-63 | counted as a multiset, the room's items lose exactly one copy of the item, if they held one |
| `Entities.Room.RemoveRequirements` | game.py:65-66 | the room requires nothing afterwards; nothing else changes |
| `Entities.HasWeapon` | game.py:144-147 | armed iff the inventory holds one of "P90", "M9", "C4", "Staff Weapon" |
| `Entities.Player.constructor` | game.py:131-137 | a new player has no room, no planet and an empty inventory |
| `Entities.Player.AddItem` | game.py:139-142 | the item becomes present; adding a held item changes nothing |
| `Entities.DialogueLines` | game_engine.py:106 | the lines of the first entry with the key (whatever they are, even none), and none when no entry has it |
| `Entities.Topics` | game_engine.py:116 | the topics are exactly the dialogue keys other than "default" |
| `World.LoadRoom` | game.py:242-284 | a room name taken anywhere is skipped with everything it carries; otherwise the room is filed under its name with no connections yet, the last planet lists it (`Planet.AddRoom`), and its declared exits are queued after those already pending |
| `World.LoadRooms` | game.py:242-284 | every entry's name ends up filed; rooms already filed stay as they are; only the last planet's room list grows, and no planet is added, renamed or re-pictured; the queue only grows; the load never fails here |
| `World.LoadRoomsFilesFirst` | game.py:242-275 | the first entry with a name not filed yet is the one filed under it, as a fresh room of the planet being loaded, and that planet lists it |
| `World.LoadPlanet` | game.py:230-284 | a planet name already loaded is skipped with all its rooms; a new invalid name fails the load and changes nothing else; a new valid name appends one planet with that name and picture, keeps every room already filed and files every room entry's name |
| `World.RoomOnOnePlanet` | game.py:219-320 | in a loaded world a room is listed by exactly one planet |
| `World.WireAllKeepsRooms` | game.py:287-320 | wiring keeps every room and its name |
| `World.WireAllAppends` | game.py:287-320 | a room ends wiring with its own connections followed by every queued connection that leaves it and whose target exists, in declaration order; nothing else about it changes |
| `World.LoadPlanetsQueues` | game.py:230-284 | after the first pass, nothing queued leaves a room that was there before, and each room the pass filed was built from a room entry of the document and has exactly that entry's exits queued for it, in order |
| `World.LoadWiresExits` | game.py:219-320 | after a load that does not fail, a room that was there before has only gained the world-level connections leaving it; a room the load filed is built from a room entry of the document and holds that entry's declared exits whose target exists, then the world-level connections leaving it, each in declaration order |
| `World.LoadRoomLoaded` | game.py:242-284 | a room entry keeps the world well formed |
| `World.LoadRoomsLoaded` | game.py:242-284 | the rooms of a planet entry keep the world well formed |
| `World.LoadPlanetLoaded` | game.py:230-284 | a planet entry keeps the world well formed |
| `World.LoadPlanetsLoaded` | game.py:230-284 | the first pass keeps the world well formed |
| `World.WireLoaded` | game.py:287-302 | one wired connection keeps the world well formed |
| `World.WireOne` | game.py:287-296 | one queued connection is appended to its source room when both ends exist, and nothing else changes |
| `World.SwapRoomKeepsLoaded` | game.py:43-66 | replacing a room by one with the same name, planet and NPC (or none) and resolving connections keeps the world well formed |
| `World.WireAllLoaded` | game.py:287-320 | the second pass keeps the world well formed |
| `World.LoadKeepsLoaded` | game.py:219-320 | a successful load leaves the world well formed: unique valid planet names, every room on exactly one planet under its own name, every connection leaving its room towards an existing room, every NPC alive in its room |
| `World.LoadPlanetsKeepsEarlier` | game.py:235-248 | later planet entries never replace a planet or room already loaded |
| `World.LoadPlanetsSplit` | game.py:230-284 | loading a prefix of the planet entries and then the rest is loading them all |
| `World.FirstOccurrenceWins` | game.py:235-248 | whatever the first entries with a name loaded survives every later entry |
| `World.LoadFailsIffInvalidName` | game.py:238 | the load fails exactly when some planet entry has an invalid name |
| `World.FindInPlanetSpec` | game.py:325-327 | within one planet a room is found iff the planet lists it, and it is that room |
| `World.FindRoomSpec` | game.py:322-328 | the lookup finds a room iff some planet lists the name, and then it is the room filed under exactly that name |
| `World.PlanetContaining` | game_engine.py:89-92 | the first planet, in order, whose rooms include the name |
| `World.PlanetNamed` | game_engine.py:18 | the planet with that name, if any |
| `World.AppendObjective` | game.py:330-333 | the log keeps its prefix and grows by at most one entry; it grows iff the objective is set, non-empty and not yet logged, and then by that objective; no duplicate is introduced |
| `World.MissingItems` | game.py:529-531 | the missing items are exactly the required items not held |
| `World.RequirementsMet` | game.py:525-533 | met iff every required item is held; unmet implies a non-empty requirement list |
| `World.Game.constructor` | game.py:204-211 | an empty world whose objective log holds the initial objective |
| `World.Game.CreateGame` | game.py:219-320 | the planets, rooms and failure flag are those of the load specification `Load`; a load that succeeds from a valid, well-formed game keeps the game valid and well formed |
| `World.Game.LoadPlanetEntry` | game.py:230-284 | one iteration of the planet loop follows `LoadPlanet` |
| `World.Game.LoadRoomEntry` | game.py:242-284 | one iteration of the room loop follows `LoadRoom` |
| `World.Game.WireConnections` | game.py:287-320 | the wiring loop follows `WireAll` |
| `World.Game.FindRoomByName` | game.py:322-328 | the result is `FindRoom`'s: found iff listed, and then the room with exactly that name |
| `World.Game.UpdateCurrentObjective` | game.py:330-333 | the log becomes `AppendObjective` of the old log and the room's objective; it stays non-empty and free of duplicates |
| `World.Game.CheckRoomRequirements` | game.py:525-533 | true iff the player holds every required item; reads and changes nothing else |
| `World.Game.KillPlayer` | game.py:365-369 | the player is moved to "Ascend" when it exists; otherwise the lookup raises and nothing changes |
| `World.Game.PlantC4` | game.py:619-635 | only in the room listed as "Reactor" with "C4" held: "C4" is used up and the reactor's requirements are cleared; otherwise nothing changes |
| `World.Game.DropGrenade` | game.py:639-653 | only in the room listed as "Shield Generator" with "Grenade" held: the grenade is used up; otherwise nothing changes |
| `Engine.Status` | game_engine.py:23-31 | the status shows the room's name, description and items, the live NPC's full name when there is one, and the latest logged objective |
| `Engine.EnabledOf` | game_engine.py:34-49 | an action is kept iff it is in the list and enabled in the room |
| `Engine.EnabledOfSorted` | game_engine.py:34-49 | keeping the enabled actions of a list in declaration order leaves them in that order |
| `Engine.AvailableActions` | game_engine.py:34-49 | "move" and "quit" first; any other action is offered iff `Enabled` allows it, in the fixed order, never twice |
| `Engine.KillImpliesInteract` | game_engine.py:39-42 | "kill" is never offered without "interact" |
| `Engine.Filtered` | game_engine.py:54-56 | exactly the connections of the asked kind (interplanetary or local), none from none |
| `Engine.FilteredAppend` | game_engine.py:54-56 | filtering keeps the connections' order and multiplicity: a connection added last is kept last when it is of the kind, and dropped otherwise |
| `Engine.FirstMatch` | game_engine.py:57-58 | the first connection whose target matches regardless of ASCII case, and none iff no connection matches |
| `Engine.FirstMatchIgnoresCase` | game_engine.py:58 | the match depends on the target only through its lower-cased form |
| `Engine.EnterStep` | game_engine.py:59-67 | an unlisted room is refused; unmet requirements are refused and name `requirement[0]`; otherwise the room is entered and its objective logged, and a room named "front gate" in any case sends the player to "Ascend" (or raises without it); planet, rooms and inventory never change |
| `Engine.MoveStep` | game_engine.py:52-70 | no matching local connection iff "no connection", with nothing changed; otherwise the first match decides as in `EnterStep`; rejections change nothing; only room and log can change |
| `Engine.MoveIgnoresCase` | game_engine.py:58 | two targets equal up to ASCII case move the player alike, death teleport included |
| `Engine.RefusalNamesFirstRequirement` | game_engine.py:69 | a refusal can name a required item the player already holds |
| `Engine.JourneyStep` | game_engine.py:80-96 | an unlisted room or unmet requirements change nothing; the win happens iff from "shuttle bay" to "briefing room" with requirements met, with the outro text and no state change; otherwise the player arrives on the first planet that lists the room (`PlanetContaining`) and the objective is logged |
| `Engine.TravelStep` | game_engine.py:73-97 | an index outside the interplanetary connections is refused and changes nothing; otherwise the chosen destination is taken as in `JourneyStep` |
| `Engine.InteractWith` | game_engine.py:100-119 | no live NPC iff "no one"; otherwise the greeting is one of the "default" lines (present iff there are any), the stance is armed or unarmed hostility for a hostile NPC, and a friendly NPC offers exactly its dialogue keys other than "default" |
| `Engine.PickupStep` | game_engine.py:122-128 | picked up iff the item lies in the room: its first occurrence leaves the room, nothing else about the room or the world changes, and the item becomes held; otherwise nothing changes |
| `Engine.KillStep` | game_engine.py:131-141 | the checks come in order (live NPC, first name up to case, armed), each refusal changing nothing; on success the NPC is reported dead and the room's NPC slot is emptied |
| `Engine.PlantStep` | game_engine.py:144-152 | only in a room named "reactor" in any case with "C4" held: "C4" is used up and the room's requirements are cleared; otherwise nothing changes |
| `Engine.DropStep` | game_engine.py:155-162 | only in a room named "shield generator" in any case with "Grenade" held: the grenade is used up; nothing else ever changes |
| `Engine.Apply` | game_engine.py:52-166 | every command keeps the session usable, and every rejection leaves it unchanged |
| `Engine.Run` | game_engine.py:52-166 | any sequence of commands keeps the session usable |
| `Engine.ApplyEvolves` | game_engine.py:52-166 | a command never adds rooms, items, requirements or NPCs, never alters a room otherwise, and never shrinks the log |
| `Engine.MoveEvolves` | game_engine.py:52-70 | `move` changes no room and only extends the log |
| `Engine.TravelEvolves` | game_engine.py:73-97 | `travel` changes no room and only extends the log |
| `Engine.PickupEvolves` | game_engine.py:122-128 | `pickup` only takes one item out of the player's room |
| `Engine.KillEvolves` | game_engine.py:131-141 | `kill` only empties the NPC slot of the player's room |
| `Engine.PlantEvolves` | game_engine.py:144-152 | `plant` only clears the requirements of the player's room |
| `Engine.RunEvolves` | game_engine.py:52-166 | over any run, items only leave rooms, requirements are only cleared, NPC slots are only emptied, and the log only grows |
| `Engine.UnlockIsPermanent` | game_engine.py:150 | a cleared requirement list stays cleared over any run |
| `Engine.NpcGoneForGood` | game_engine.py:140 | an emptied NPC slot stays empty over any run |
| `Engine.PlantedRoomStaysOpen` | game_engine.py:144-152 | after planting, entering the reactor is never refused for requirements, whatever follows |
| `Engine.ReactorDoor` | game_engine.py:52-58 | in the two-room scenario world, `move Reactor` finds the door and the listed room |
| `Engine.ReactorScenario` | game_engine.py:52-152 | from "Quarters", moving to the C4-locked "Reactor" is refused with nothing changed; picking up the C4 empties "Quarters"; then the move succeeds, and planting uses up the C4 and clears the reactor's requirements |
| `Engine.ReactorPickup` | game_engine.py:122-128 | picking up the C4 in the scenario world empties "Quarters" and adds it to the inventory, nothing else |
| `Engine.ReactorPlant` | game_engine.py:52-152 | with the C4 held, the move into "Reactor" succeeds and planting clears its requirements |
| `Engine.KillLeavesNoOne` | game_engine.py:131-141 | after a kill, interacting finds no one and killing again finds no enemy |
| `Engine.ReplaceRoomKeepsLoaded` | game_engine.py:125-150 | changing a room's items or requirements, or emptying its NPC slot, keeps the world well formed |
| `Engine.EnterKeepsWf` | game_engine.py:59-67 | entering a room keeps the session well formed |
| `Engine.MoveKeepsWf` | game_engine.py:52-70 | `move` keeps the session well formed |
| `Engine.JourneyKeepsWf` | game_engine.py:80-96 | a journey keeps the session well formed, the new planet among the loaded ones |
| `Engine.TravelKeepsWf` | game_engine.py:73-97 | `travel` keeps the session well formed |
| `Engine.PickupKeepsWf` | game_engine.py:122-128 | `pickup` keeps the session well formed |
| `Engine.KillKeepsWf` | game_engine.py:131-141 | `kill` keeps the session well formed |
| `Engine.PlantKeepsWf` | game_engine.py:144-152 | `plant` keeps the session well formed |
| `Engine.ApplyKeepsWf` | game_engine.py:52-166 | every command keeps the session well formed |
| `Engine.RunKeepsWf` | game_engine.py:52-166 | every run keeps the session well formed |
| `Engine.GameEngine.constructor` | game_engine.py:7-11 | the game holds the loaded world (`Load` from an empty world), well formed, with no player |
| `Engine.GameEngine.InitializeGame` | game_engine.py:14-20 | a new player shared with the game, placed in "Quarters" on "Earth" with the room status returned; without either, the lookup raises and the player stays unplaced |
| `Engine.GameEngine.GetRoomStatus` | game_engine.py:23-31 | the status of the session, `Status` |
| `Engine.GameEngine.GetAvailableActions` | game_engine.py:34-49 | the actions `AvailableActions` offers in the player's room |
| `Engine.GameEngine.Move` | game_engine.py:52-70 | the new session and the outcome are those of `MoveStep` |
| `Engine.GameEngine.EnterRoom` | game_engine.py:59-69 | the new session and the outcome are those of `EnterStep` |
| `Engine.GameEngine.Travel` | game_engine.py:73-97 | the new session and the outcome are those of `TravelStep` |
| `Engine.GameEngine.Journey` | game_engine.py:79-96 | the new session and the outcome are those of `JourneyStep` |
| `Engine.GameEngine.Interact` | game_engine.py:100-119 | the outcome is `InteractWith`'s; nothing changes |
| `Engine.GameEngine.Pickup` | game_engine.py:122-128 | the new session and the outcome are those of `PickupStep` |
| `Engine.GameEngine.Kill` | game_engine.py:131-141 | the new session and the outcome are those of `KillStep` |
| `Engine.GameEngine.Plant` | game_engine.py:144-152 | the new session and the outcome are those of `PlantStep` |
| `Engine.GameEngine.Drop` | game_engine.py:155-162 | the new session and the outcome are those of `DropStep` |
| `Engine.GameEngine.QuitGame` | game_engine.py:165-166 | the game-ended outcome, which is no rejection; nothing changes |

## Left out

- main_gui.py is not part of this model. It is the widget layer and only calls the engine.
- The console-driven methods of `game.py` are not modelled: `Game.start`, `pickup_item`, `move`, `handle_gate_travel`, `interact_with_npc`, `handle_trade`, `display_room_status`, `Npc.interact` and `Room.show_connected_rooms`. They read `input()`, print, and repeat the engine's logic. This leaves out trading and topic selection.
- `load_json` and the file reading in `create_game` are not modelled. The load starts from an already-parsed `WorldData`. The outro lines of the story document are passed to the engine's constructor.
- The JSON document is taken as well typed: names are strings, absent optional lists are empty, absent optional values are `None`. `is_valid_name`'s `isinstance` test therefore always holds.
- Dialogue tables are a sequence of (key, lines) entries, read as the dictionary they come from, so keys are taken as unique.
- Message wording, emoji, and the warnings printed during the load and by `check_room_requirements` are not modelled. Outcomes keep the tag and the names a message mentions.
- Pictures are carried as data but play no role. Also not modelled: `GameObject.roomcounter` (unused), `Player.health` (never changed), `Game.room_map` (never filled), `Room.add_npc` and `Room.get_connection` (never called).
- `Text.Lower` lower-cases ASCII letters only, because Python's `str.lower()` on other scripts is not modelled. Names outside ASCII are compared as they are.
- Engine.InteractWith: the random choice of the greeting becomes an injected index `choose` taken modulo the number of lines. The contract only promises that the greeting is one of the "default" lines.
- Engine.GameEngine.constructor requires every planet name in the world document to be valid. An invalid name makes the source's constructor raise out of `__init__`, so no engine exists. `World.Game.CreateGame` models that failure on its own.
- The source's `Planet` object is filed in `self.planets` before its rooms are loaded. The model files it afterwards. The planet is the same object either way, so the resulting planets are the same.
- The source mutates one shared `Room` object that `self.rooms`, the planet and `player.current_room` all point to. The model replaces the arena entry and keeps the player's room by name. This gives the same observations because room names are unique keys.
- The `Npc` object marked dead by `kill` is unreachable once the room's slot is emptied. The model returns it, marked dead, in the outcome.
