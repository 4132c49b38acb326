/**
  The entities of the game world (game.py): name validation, rooms, planets,
  connections, NPCs and the player.

  Rooms are values: the game keeps every room in one arena keyed by its
  unique name, and planets, connections, NPCs and the player refer to rooms
  by that name.  Updating a room "in place" is replacing its arena entry.
 */
module Entities {
  import opened Text

  datatype Option<+T> = None | Some(value: T)

  /** The one connection kind that is taken with `travel` instead of `move`. */
  const Interplanetary: string := "interplanetary"

  /** The items that count as a weapon, in the order `has_weapon` tests them. */
  const Weapons: seq<string> := ["P90", "M9", "C4", "Staff Weapon"]

  /** `GameObject.is_valid_name`: a string that is not empty once stripped. */
  function IsValidName(name: string): (valid: bool)
    ensures valid <==> exists i :: 0 <= i < |name| && !IsSpace(name[i])
  {
    StripNonEmptyIff(name);
    |Strip(name)| > 0
  }

  /** A directed edge; the target is kept by name and resolved when traversed. */
  datatype Connection = Connection(fromRoom: string, toRoom: string, kind: string)
  {
    predicate IsInterplanetary() {
      kind == Interplanetary
    }
  }

  /** One entry of an NPC's dialogue table: a topic key and its candidate lines. */
  datatype Topic = Topic(key: string, lines: seq<string>)

  datatype Npc = Npc(
    firstName: string,
    lastName: string,
    room: string,
    hostile: bool,
    dead: bool,
    inventory: seq<string>,
    dialogues: seq<Topic>)
  {
    /** The display name, first and last name joined by a blank. */
    function Name(): string {
      firstName + " " + lastName
    }
  }

  /** `dialogues.get(key, [])`: the lines of the first entry with that key. */
  function DialogueLines(dialogues: seq<Topic>, key: string): (lines: seq<string>)
    ensures lines != [] ==> exists i :: 0 <= i < |dialogues| && dialogues[i].key == key && dialogues[i].lines == lines
    ensures (forall i :: 0 <= i < |dialogues| ==> dialogues[i].key != key) ==> lines == []
    ensures forall i :: 0 <= i < |dialogues| && dialogues[i].key == key && (forall j :: 0 <= j < i ==> dialogues[j].key != key) ==>
      lines == dialogues[i].lines
  {
    if |dialogues| == 0 then []
    else if dialogues[0].key == key then dialogues[0].lines
    else DialogueLines(dialogues[1..], key)
  }

  /** The discussable topics: every dialogue key except "default", in table order. */
  function Topics(dialogues: seq<Topic>): (topics: seq<string>)
    ensures forall k :: k in topics <==> k != "default" && exists i :: 0 <= i < |dialogues| && dialogues[i].key == k
    ensures |topics| <= |dialogues|
  {
    if |dialogues| == 0 then []
    else
      var rest := Topics(dialogues[1..]);
      assert forall i :: 0 <= i < |dialogues| - 1 ==> dialogues[1..][i] == dialogues[i + 1];
      if dialogues[0].key == "default" then rest else [dialogues[0].key] + rest
  }

  /** The position of the first occurrence of `x` in `s`. */
  function FirstIndex(s: seq<string>, x: string): (i: nat)
    requires x in s
    ensures i < |s| && s[i] == x && x !in s[..i]
  {
    if s[0] == x then 0
    else
      var j := FirstIndex(s[1..], x);
      assert s[..j + 1] == [s[0]] + s[1..][..j];
      j + 1
  }

  /** `list.remove(x)` guarded by `x in list`: drops the first occurrence, if any. */
  function RemoveFirst(s: seq<string>, x: string): (r: seq<string>)
    ensures x !in s ==> r == s
    ensures |r| == if x in s then |s| - 1 else |s|
  {
    if |s| == 0 then s
    else if s[0] == x then s[1..]
    else
      assert x in s <==> x in s[1..] by { assert s == [s[0]] + s[1..]; }
      [s[0]] + RemoveFirst(s[1..], x)
  }

  /** Exactly one occurrence goes: the multiset of items loses one `x`, if it had one. */
  lemma {:induction false} RemoveFirstCount(s: seq<string>, x: string)
    ensures multiset(RemoveFirst(s, x)) == multiset(s) - multiset{x}
  {
    if |s| > 0 {
      assert s == [s[0]] + s[1..];
      if s[0] != x {
        RemoveFirstCount(s[1..], x);
      }
    }
  }

  /** The occurrence `RemoveFirst` drops is the first one. */
  lemma {:induction false} RemoveFirstAt(s: seq<string>, x: string, i: nat)
    requires i < |s| && s[i] == x && x !in s[..i]
    ensures RemoveFirst(s, x) == s[..i] + s[i + 1..]
  {
    if i == 0 {
      assert s[..0] == [];
    } else {
      var t := s[1..];
      assert s[0] != x by { assert s[0] == s[..i][0]; }
      assert x !in t[..i - 1] by { assert t[..i - 1] == s[..i][1..]; }
      RemoveFirstAt(t, x, i - 1);
      calc {
        RemoveFirst(s, x);
        [s[0]] + RemoveFirst(t, x);
        [s[0]] + (t[..i - 1] + t[i..]);
        ([s[0]] + t[..i - 1]) + t[i..];
        { assert [s[0]] + t[..i - 1] == s[..i]; assert t[i..] == s[i + 1..]; }
        s[..i] + s[i + 1..];
      }
    }
  }

  datatype Room = Room(
    name: string,
    description: string,
    planet: string,
    connections: seq<Connection>,
    items: seq<string>,
    requirement: seq<string>,
    objective: Option<string>,
    npc: Option<Npc>,
    picture: Option<string>)
  {
    /** `Room.add_connection`: the connection goes last; nothing else changes. */
    function AddConnection(c: Connection): (r: Room)
      ensures r.connections == connections + [c]
      ensures r.(connections := connections) == this
    {
      this.(connections := connections + [c])
    }

    /** `Room.remove_item`: one occurrence of a present item leaves the room. */
    function RemoveItem(item: string): (r: Room)
      ensures item in items ==> r.items == items[..FirstIndex(items, item)] + items[FirstIndex(items, item) + 1..]
      ensures item !in items ==> r == this
      ensures r.(items := items) == this
    {
      if item in items then
        RemoveFirstAt(items, item, FirstIndex(items, item));
        this.(items := RemoveFirst(items, item))
      else this
    }

    /** Counted as a multiset, the room's items lose exactly one `item`, if they held one. */
    lemma RemoveItemCount(item: string)
      ensures multiset(RemoveItem(item).items) == multiset(items) - multiset{item}
    {
      RemoveFirstCount(items, item);
    }

    /** `Room.remove_requirements`: the room no longer requires anything. */
    function RemoveRequirements(): (r: Room)
      ensures r.requirement == []
      ensures r.(requirement := requirement) == this
    {
      this.(requirement := [])
    }
  }

  /** A planet and the names of its rooms, in the order they were added. */
  datatype Planet = Planet(name: string, picture: Option<string>, roomNames: seq<string>)
  {
    /** `Planet.add_room`: a name already present is refused and leaves the planet unchanged. */
    function AddRoom(roomName: string): (p: Planet)
      ensures roomName in p.roomNames
      ensures roomName in roomNames ==> p == this
      ensures roomName !in roomNames ==> p.roomNames == roomNames + [roomName]
      ensures p.name == name && p.picture == picture
    {
      if roomName in roomNames then this else this.(roomNames := roomNames + [roomName])
    }
  }

  /** The `Planet` constructor, which raises on an invalid name; `None` stands for the raise. */
  function NewPlanet(name: string, picture: Option<string>): (p: Option<Planet>)
    ensures p.Some? <==> exists i :: 0 <= i < |name| && !IsSpace(name[i])
    ensures p.Some? ==> p.value.name == name && p.value.picture == picture && p.value.roomNames == []
  {
    if IsValidName(name) then Some(Planet(name, picture, [])) else None
  }

  /** `Player.has_weapon`: the inventory holds one of the weapons. */
  function HasWeapon(inventory: set<string>): (armed: bool)
    ensures armed <==> exists i :: 0 <= i < |Weapons| && Weapons[i] in inventory
  {
    assert Weapons[0] == "P90" && Weapons[1] == "M9" && Weapons[2] == "C4" && Weapons[3] == "Staff Weapon";
    "P90" in inventory || "M9" in inventory || "C4" in inventory || "Staff Weapon" in inventory
  }

  /**
    The player.  The inventory is a presence set: holding an item is yes or
    no, never a count.  The current room and planet are unset until the
    game is initialised.
   */
  class Player {
    const name: string
    var currentPlanet: Option<string>
    var currentRoom: Option<string>
    var inventory: set<string>

    constructor (name: string)
      ensures this.name == name
      ensures currentPlanet == None && currentRoom == None && inventory == {}
    {
      this.name := name;
      currentPlanet := None;
      currentRoom := None;
      inventory := {};
    }

    /** `Player.add_item`: the item becomes present; a held item changes nothing. */
    method AddItem(item: string)
      modifies this`inventory
      ensures item in inventory
      ensures inventory == old(inventory) + {item}
      ensures item in old(inventory) ==> inventory == old(inventory)
    {
      inventory := inventory + {item};
    }
  }
}
