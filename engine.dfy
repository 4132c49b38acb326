/**
  The action resolver (game_engine.py, class `GameEngine`): one command per
  method, each either changing the session and reporting success or
  reporting a rejection and changing nothing.

  The session is specified by a value, `State`, and one transition function
  per command; the class `GameEngine` keeps the session in the `Game` and the
  `Player` objects and its methods are proved to follow the transition
  functions.  Outcomes stand for the messages the source returns: the tag
  and the names the message mentions, not its wording.
 */
module Engine {
  import opened Text
  import opened Entities
  import opened World

  // ---------------------------------------------------------------------
  // Outcomes
  // ---------------------------------------------------------------------

  /** What `get_room_status` shows; `npc` is the live NPC's full name, `items` empty shows none. */
  datatype RoomStatus = RoomStatus(
    location: string,
    description: string,
    npc: Option<string>,
    items: seq<string>,
    objective: string)

  /** The second line of an interaction: the NPC's attitude, or the topics it offers. */
  datatype Stance = HostileArmed | HostileUnarmed | Friendly(topics: seq<string>)

  datatype Outcome =
    // move
    | Moved(room: string, status: RoomStatus)
    | NoConnection(target: string)
    | RoomNotFound(target: string)
    | RequirementsNotMet(room: string, missing: string)
    | KeyErrorRaised(key: string)
    // travel
    | Traveled(room: string, status: RoomStatus)
    | Won(text: string)
    | TravelBlocked(room: string, requirement: seq<string>)
    | InvalidDestination
    // interact
    | NoOneToInteract
    | Interaction(speaker: string, greeting: Option<string>, stance: Stance)
    // pickup
    | PickedUp(item: string)
    | NotInRoom(item: string)
    // kill
    | NoEnemy
    | NoEnemyNamed(name: string)
    | Unarmed
    | Killed(npc: Npc)
    // plant and drop
    | NotInReactor
    | NoC4
    | Planted
    | NotAtShieldGenerator
    | NoGrenade
    | GrenadeThrown
    // quit
    | GameEnded
  {
    /** The messages that refuse the command. */
    predicate IsRejection() {
      || NoConnection? || RoomNotFound? || RequirementsNotMet?
      || TravelBlocked? || InvalidDestination?
      || NotInRoom?
      || NoEnemy? || NoEnemyNamed? || Unarmed?
      || NotInReactor? || NoC4? || NotAtShieldGenerator? || NoGrenade?
    }
  }

  // ---------------------------------------------------------------------
  // The session as a value
  // ---------------------------------------------------------------------

  /**
    The session: the world (planets never change once loaded), the outro
    lines, the objective log, and the player's planet, room and inventory.
    The player's room and planet are kept by name.
   */
  datatype State = State(
    planets: seq<Planet>,
    rooms: map<string, Room>,
    outro: seq<string>,
    log: seq<string>,
    planet: string,
    room: string,
    inventory: set<string>)

  datatype Step = Step(state: State, outcome: Outcome)

  /** What every command needs: lookups work, the player stands in a room, the log has an entry. */
  predicate Ready(s: State) {
    WorldWf(s.planets, s.rooms) && s.room in s.rooms && |s.log| > 0
  }

  /** The session as `initialize_game` leaves it and every command keeps it. */
  ghost predicate StateWf(s: State) {
    Ready(s) && Loaded(s.planets, s.rooms) && NoDuplicates(s.log) && HasPlanet(s.planets, s.planet)
  }

  predicate LiveNpc(room: Room) {
    room.npc.Some? && !room.npc.value.dead
  }

  /** `get_room_status` for the player's room. */
  function Status(s: State): (st: RoomStatus)
    requires Ready(s)
    ensures st.location == s.room && st.description == s.rooms[s.room].description
    ensures st.npc.Some? <==> LiveNpc(s.rooms[s.room])
    ensures st.npc.Some? ==> st.npc.value == s.rooms[s.room].npc.value.Name()
    ensures st.items == s.rooms[s.room].items
    ensures st.objective in s.log && st.objective == s.log[|s.log| - 1]
  {
    var room := s.rooms[s.room];
    RoomStatus(room.name, room.description,
               if LiveNpc(room) then Some(room.npc.value.Name()) else None,
               room.items, s.log[|s.log| - 1])
  }

  // ---------------------------------------------------------------------
  // Available actions
  // ---------------------------------------------------------------------

  /** The actions the front ends offer, declared in the order `get_available_actions` appends them. */
  datatype Action = Move | Quit | Pickup | Interact | Kill | Travel | Plant | Drop
  {
    /** The name the source uses for the action. */
    function Name(): string {
      match this
      case Move => "move"
      case Quit => "quit"
      case Pickup => "pickup"
      case Interact => "interact"
      case Kill => "kill"
      case Travel => "travel"
      case Plant => "plant"
      case Drop => "drop"
    }

    /** The position in the declaration order. */
    function Rank(): nat {
      match this
      case Move => 0
      case Quit => 1
      case Pickup => 2
      case Interact => 3
      case Kill => 4
      case Travel => 5
      case Plant => 6
      case Drop => 7
    }
  }

  predicate HasInterplanetary(cs: seq<Connection>) {
    exists i :: 0 <= i < |cs| && cs[i].IsInterplanetary()
  }

  /** The actions offered only when the room allows them, in declaration order. */
  const Optional: seq<Action> := [Pickup, Interact, Kill, Travel, Plant, Drop]

  lemma OptionalActions()
    ensures forall a :: a in Optional <==> a != Move && a != Quit
    ensures forall a :: a in Optional ==> 2 <= a.Rank()
    ensures Sorted(Optional)
  {
    forall a | a != Move && a != Quit ensures a in Optional {
      match a
      case Pickup => assert Optional[0] == a;
      case Interact => assert Optional[1] == a;
      case Kill => assert Optional[2] == a;
      case Travel => assert Optional[3] == a;
      case Plant => assert Optional[4] == a;
      case Drop => assert Optional[5] == a;
    }
  }

  /** Ranks strictly increase along the list. */
  predicate Sorted(xs: seq<Action>) {
    forall i, j :: 0 <= i < j < |xs| ==> xs[i].Rank() < xs[j].Rank()
  }

  /** When `get_available_actions` offers an action in the given room. */
  predicate Enabled(room: Room, a: Action) {
    match a
    case Move => true
    case Quit => true
    case Pickup => room.items != []
    case Interact => LiveNpc(room)
    case Kill => LiveNpc(room) && room.npc.value.hostile
    case Travel => HasInterplanetary(room.connections)
    case Plant => Lower(room.name) == "reactor"
    case Drop => Lower(room.name) == "shield generator"
  }

  /** The enabled actions of `xs`, in their order. */
  function EnabledOf(xs: seq<Action>, room: Room): (r: seq<Action>)
    ensures forall a :: a in r <==> a in xs && Enabled(room, a)
    decreases |xs|
  {
    if xs == [] then []
    else
      var rest := EnabledOf(xs[1..], room);
      assert forall a :: a in xs <==> a == xs[0] || a in xs[1..];
      if Enabled(room, xs[0]) then [xs[0]] + rest else rest
  }

  /** Filtering keeps the order: the enabled actions of a sorted list are sorted. */
  lemma {:induction false} EnabledOfSorted(xs: seq<Action>, room: Room)
    requires Sorted(xs)
    ensures Sorted(EnabledOf(xs, room))
    decreases |xs|
  {
    if xs != [] {
      var rest := EnabledOf(xs[1..], room);
      forall i, j | 0 <= i < j < |xs| - 1 ensures xs[1..][i].Rank() < xs[1..][j].Rank() {
        assert xs[1..][i] == xs[i + 1] && xs[1..][j] == xs[j + 1];
      }
      EnabledOfSorted(xs[1..], room);
      if Enabled(room, xs[0]) {
        forall a | a in rest ensures xs[0].Rank() < a.Rank() {
          var j :| 0 <= j < |xs| - 1 && xs[1..][j] == a;
          assert xs[j + 1] == a;
        }
        ConsSorted(xs[0], rest);
      }
    }
  }

  /** An action ranked below every action of a sorted list can go in front of it. */
  lemma ConsSorted(x: Action, rest: seq<Action>)
    requires Sorted(rest) && forall a :: a in rest ==> x.Rank() < a.Rank()
    ensures Sorted([x] + rest)
  {
    var xs := [x] + rest;
    forall i, j | 0 <= i < j < |xs| ensures xs[i].Rank() < xs[j].Rank() {
      assert xs[j] == rest[j - 1];
      if i > 0 { assert xs[i] == rest[i - 1]; }
    }
  }

  /**
    `get_available_actions`: "move" and "quit" always come first; each other
    action is offered exactly when `Enabled` allows it, in the declaration
    order of `Action`, never twice.
   */
  function AvailableActions(room: Room): (actions: seq<Action>)
    ensures |actions| >= 2 && actions[0] == Move && actions[1] == Quit
    ensures forall a :: a in actions <==> Enabled(room, a)
    ensures Sorted(actions)
  {
    var offered := EnabledOf(Optional, room);
    OptionalActions();
    EnabledOfSorted(Optional, room);
    ConsSorted(Quit, offered);
    var tail := [Quit] + offered;
    assert forall a :: a in tail <==> a == Quit || a in offered;
    ConsSorted(Move, tail);
    [Move] + tail
  }

  /** "kill" is never offered without "interact". */
  lemma KillImpliesInteract(room: Room)
    ensures Kill in AvailableActions(room) ==> Interact in AvailableActions(room)
  {
  }

  // ---------------------------------------------------------------------
  // move
  // ---------------------------------------------------------------------

  /** The connections of one kind (interplanetary or local), in their order. */
  function Filtered(cs: seq<Connection>, interplanetary: bool): (r: seq<Connection>)
    ensures forall c :: c in r <==> c in cs && c.IsInterplanetary() == interplanetary
    ensures |r| <= |cs|
    ensures cs == [] ==> r == []
    decreases |cs|
  {
    if cs == [] then []
    else
      var rest := Filtered(cs[1..], interplanetary);
      assert forall c :: c in cs <==> c == cs[0] || c in cs[1..];
      if cs[0].IsInterplanetary() == interplanetary then [cs[0]] + rest else rest
  }

  /** Filtering keeps the order: a connection added last is kept last, if it is of the kind. */
  lemma {:induction false} FilteredAppend(cs: seq<Connection>, c: Connection, interplanetary: bool)
    ensures Filtered(cs + [c], interplanetary) ==
      Filtered(cs, interplanetary) + (if c.IsInterplanetary() == interplanetary then [c] else [])
    decreases |cs|
  {
    if cs == [] {
      assert [] + [c] == [c];
    } else {
      assert (cs + [c])[1..] == cs[1..] + [c];
      FilteredAppend(cs[1..], c, interplanetary);
    }
  }

  /** The first connection whose target matches `target` regardless of ASCII case. */
  function FirstMatch(cs: seq<Connection>, target: string): (r: Option<Connection>)
    ensures r.Some? <==> exists i :: 0 <= i < |cs| && Lower(cs[i].toRoom) == Lower(target)
    ensures r.Some? ==>
      exists i :: 0 <= i < |cs| && cs[i] == r.value && Lower(cs[i].toRoom) == Lower(target) &&
                  (forall j :: 0 <= j < i ==> Lower(cs[j].toRoom) != Lower(target))
    decreases |cs|
  {
    if cs == [] then None
    else if Lower(cs[0].toRoom) == Lower(target) then Some(cs[0])
    else
      var r := FirstMatch(cs[1..], target);
      assert forall i :: 0 <= i < |cs| - 1 ==> cs[1..][i] == cs[i + 1];
      r
  }

  /** The match depends on the target only through its lower-cased form. */
  lemma {:induction false} FirstMatchIgnoresCase(cs: seq<Connection>, a: string, b: string)
    requires Lower(a) == Lower(b)
    ensures FirstMatch(cs, a) == FirstMatch(cs, b)
    decreases |cs|
  {
    if cs != [] {
      FirstMatchIgnoresCase(cs[1..], a, b);
    }
  }

  /**
    The part of `move` after the matching connection is chosen: its target
    room must be found and its requirements met; then the player enters it
    and its objective is logged.  Entering a room whose name lower-cases to
    "front gate" kills the player, who ends up in "Ascend" (a world without
    "Ascend" raises there, after the move).  The current planet is never
    updated.
   */
  function EnterStep(s: State, name: string): (r: Step)
    requires Ready(s)
    ensures Ready(r.state)
    ensures r.outcome.RoomNotFound? || r.outcome.RequirementsNotMet? || r.outcome.Moved? || r.outcome.KeyErrorRaised?
    ensures r.outcome.RoomNotFound? <==> !Listed(s.planets, name)
    ensures r.outcome.RoomNotFound? || r.outcome.RequirementsNotMet? ==> r.state == s
    ensures r.state == s.(room := r.state.room, log := r.state.log)
    ensures r.outcome.RequirementsNotMet? ==>
      r.outcome.room == name && name in s.rooms && !RequirementsMet(s.rooms[name].requirement, s.inventory) &&
      r.outcome.missing == s.rooms[name].requirement[0]
    ensures r.outcome.Moved? || r.outcome.KeyErrorRaised? ==>
      && name in s.rooms && RequirementsMet(s.rooms[name].requirement, s.inventory)
      && r.state.log == AppendObjective(s.log, s.rooms[name].objective)
      && r.state.room == (if Lower(name) == "front gate" && "Ascend" in s.rooms then "Ascend" else name)
      && (r.outcome.KeyErrorRaised? <==> Lower(name) == "front gate" && "Ascend" !in s.rooms)
    ensures r.outcome.Moved? ==> r.outcome.room == name && r.outcome.status == Status(r.state)
    ensures r.outcome.KeyErrorRaised? ==> r.outcome.key == "Ascend"
  {
    FindRoomSpec(s.planets, s.rooms, name);
    match FindRoom(s.planets, s.rooms, name)
    case None => Step(s, RoomNotFound(name))
    case Some(next) =>
      if !RequirementsMet(next.requirement, s.inventory) then
        Step(s, RequirementsNotMet(next.name, next.requirement[0]))
      else
        var entered := s.(room := next.name, log := AppendObjective(s.log, next.objective));
        if Lower(next.name) == "front gate" then
          if "Ascend" in s.rooms then
            var dead := entered.(room := "Ascend");
            Step(dead, Moved(next.name, Status(dead)))
          else Step(entered, KeyErrorRaised("Ascend"))
        else Step(entered, Moved(next.name, Status(entered)))
  }

  /** The room's local connections. */
  function LocalExits(s: State): seq<Connection>
    requires s.room in s.rooms
  {
    Filtered(s.rooms[s.room].connections, false)
  }

  /**
    `move`: the first local connection whose target matches the argument
    regardless of ASCII case decides; without one nothing changes.  Only the
    room and the objective log can change; the planet never does.
   */
  function MoveStep(s: State, target: string): (r: Step)
    requires Ready(s)
    ensures Ready(r.state)
    ensures r.outcome.IsRejection() ==> r.state == s
    ensures r.state == s.(room := r.state.room, log := r.state.log)
    ensures r.outcome.NoConnection? <==> forall c :: c in LocalExits(s) ==> Lower(c.toRoom) != Lower(target)
    ensures r.outcome.NoConnection? ==> r.outcome.target == target
    ensures !r.outcome.NoConnection? ==>
      FirstMatch(LocalExits(s), target).Some? && r == EnterStep(s, FirstMatch(LocalExits(s), target).value.toRoom)
  {
    match FirstMatch(LocalExits(s), target)
    case None => Step(s, NoConnection(target))
    case Some(c) => EnterStep(s, c.toRoom)
  }

  /** Two targets that agree up to ASCII case move the player alike. */
  lemma MoveIgnoresCase(s: State, a: string, b: string)
    requires Ready(s) && Lower(a) == Lower(b)
    ensures MoveStep(s, a).state == MoveStep(s, b).state
    ensures MoveStep(s, a).outcome.NoConnection? ==> MoveStep(s, b).outcome == NoConnection(b)
    ensures !MoveStep(s, a).outcome.NoConnection? ==> MoveStep(s, a).outcome == MoveStep(s, b).outcome
  {
    FirstMatchIgnoresCase(Filtered(s.rooms[s.room].connections, false), a, b);
  }

  // ---------------------------------------------------------------------
  // travel
  // ---------------------------------------------------------------------

  /** The message of the win: the outro lines and the closing line. */
  function WinText(outro: seq<string>): string {
    Join(outro, "\n") + "\n You win!"
  }

  /**
    The part of `travel` after the connection is chosen: its room must be
    found and its requirements met.  From "shuttle bay" to "briefing room"
    (regardless of ASCII case) the game is won and nothing moves; otherwise
    the player enters the room, on the first planet that lists it, and its
    objective is logged.
   */
  function JourneyStep(s: State, name: string): (r: Step)
    requires Ready(s)
    ensures Ready(r.state)
    ensures r.outcome.RoomNotFound? || r.outcome.TravelBlocked? || r.outcome.Won? || r.outcome.Traveled?
    ensures r.outcome.RoomNotFound? <==> !Listed(s.planets, name)
    ensures !r.outcome.Traveled? ==> r.state == s
    ensures r.state == s.(room := r.state.room, planet := r.state.planet, log := r.state.log)
    ensures r.outcome.TravelBlocked? ==>
      r.outcome.room == name && name in s.rooms && !RequirementsMet(s.rooms[name].requirement, s.inventory) &&
      r.outcome.requirement == s.rooms[name].requirement
    ensures r.outcome.Won? <==>
      Listed(s.planets, name) && RequirementsMet(s.rooms[name].requirement, s.inventory) &&
      Lower(s.room) == "shuttle bay" && Lower(name) == "briefing room"
    ensures r.outcome.Won? ==> r.outcome.text == WinText(s.outro)
    ensures r.outcome.Traveled? ==>
      && r.outcome.room == name == r.state.room
      && RequirementsMet(s.rooms[name].requirement, s.inventory)
      && r.state.log == AppendObjective(s.log, s.rooms[name].objective)
      && Listed(s.planets, name) && r.state.planet == PlanetContaining(s.planets, name).name
      && r.outcome.status == Status(r.state)
  {
    FindRoomSpec(s.planets, s.rooms, name);
    match FindRoom(s.planets, s.rooms, name)
    case None => Step(s, RoomNotFound(name))
    case Some(next) =>
      if !RequirementsMet(next.requirement, s.inventory) then
        Step(s, TravelBlocked(next.name, next.requirement))
      else if Lower(s.rooms[s.room].name) == "shuttle bay" && Lower(next.name) == "briefing room" then
        Step(s, Won(WinText(s.outro)))
      else
        var planet := PlanetContaining(s.planets, next.name);
        var arrived := s.(room := next.name, planet := planet.name, log := AppendObjective(s.log, next.objective));
        Step(arrived, Traveled(next.name, Status(arrived)))
  }

  /** The room's interplanetary connections, the travel destinations. */
  function Destinations(s: State): seq<Connection>
    requires s.room in s.rooms
  {
    Filtered(s.rooms[s.room].connections, true)
  }

  /**
    `travel`: an index outside the destinations is refused and changes
    nothing; otherwise the destination at `index` is taken.
   */
  function TravelStep(s: State, index: int): (r: Step)
    requires Ready(s)
    ensures Ready(r.state)
    ensures r.outcome.IsRejection() || r.outcome.Won? ==> r.state == s
    ensures r.state == s.(room := r.state.room, planet := r.state.planet, log := r.state.log)
    ensures r.outcome.InvalidDestination? <==> !(0 <= index < |Destinations(s)|)
    ensures !r.outcome.InvalidDestination? ==> r == JourneyStep(s, Destinations(s)[index].toRoom)
  {
    if !(0 <= index < |Destinations(s)|) then Step(s, InvalidDestination)
    else JourneyStep(s, Destinations(s)[index].toRoom)
  }

  // ---------------------------------------------------------------------
  // interact, pickup, kill, plant, drop
  // ---------------------------------------------------------------------

  /**
    `interact`: with a live NPC, its greeting (one of its "default" lines,
    the `choose`-th modulo their number, when it has any) and then its
    attitude, or the topics it offers.  Nothing changes.
   */
  function InteractWith(s: State, choose: nat): (o: Outcome)
    requires Ready(s)
    ensures o.NoOneToInteract? <==> !LiveNpc(s.rooms[s.room])
    ensures o.NoOneToInteract? || o.Interaction?
    ensures o.Interaction? ==>
      var npc := s.rooms[s.room].npc.value;
      var lines := DialogueLines(npc.dialogues, "default");
      && o.speaker == npc.Name()
      && (o.greeting.Some? <==> lines != [])
      && (o.greeting.Some? ==> o.greeting.value in lines)
      && (o.stance.HostileArmed? <==> npc.hostile && HasWeapon(s.inventory))
      && (o.stance.HostileUnarmed? <==> npc.hostile && !HasWeapon(s.inventory))
      && (o.stance.Friendly? ==> !npc.hostile && forall t :: t in o.stance.topics <==>
            t != "default" && exists i :: 0 <= i < |npc.dialogues| && npc.dialogues[i].key == t)
  {
    var room := s.rooms[s.room];
    if !LiveNpc(room) then NoOneToInteract
    else
      var npc := room.npc.value;
      var lines := DialogueLines(npc.dialogues, "default");
      var greeting := if lines == [] then None else Some(lines[choose % |lines|]);
      var stance :=
        if npc.hostile then (if HasWeapon(s.inventory) then HostileArmed else HostileUnarmed)
        else Friendly(Topics(npc.dialogues));
      Interaction(npc.Name(), greeting, stance)
  }

  /** `pickup`: an item lying in the room moves, one occurrence of it, into the inventory. */
  function PickupStep(s: State, item: string): (r: Step)
    requires Ready(s)
    ensures Ready(r.state)
    ensures r.outcome.PickedUp? <==> item in s.rooms[s.room].items
    ensures r.outcome.PickedUp? || r.outcome.NotInRoom?
    ensures r.outcome.item == item
    ensures r.outcome.NotInRoom? ==> r.state == s
    ensures r.outcome.PickedUp? ==>
      && r.state.inventory == s.inventory + {item}
      && r.state.rooms.Keys == s.rooms.Keys
      && (forall k :: k in s.rooms && k != s.room ==> r.state.rooms[k] == s.rooms[k])
      && r.state.rooms[s.room].(items := s.rooms[s.room].items) == s.rooms[s.room]
      && (var items := s.rooms[s.room].items; var i := FirstIndex(items, item);
          r.state.rooms[s.room].items == items[..i] + items[i + 1..])
      && r.state == s.(rooms := r.state.rooms, inventory := r.state.inventory)
  {
    var room := s.rooms[s.room];
    if item in room.items then
      Step(s.(rooms := s.rooms[s.room := room.RemoveItem(item)], inventory := s.inventory + {item}), PickedUp(item))
    else Step(s, NotInRoom(item))
  }

  /**
    `kill`: tested in this order, a live NPC must be present, its first name
    must match regardless of ASCII case, and the player must be armed.  Then
    the NPC dies and the room's NPC slot is emptied.
   */
  function KillStep(s: State, name: string): (r: Step)
    requires Ready(s)
    ensures Ready(r.state)
    ensures var room := s.rooms[s.room];
      && (r.outcome.NoEnemy? <==> !LiveNpc(room))
      && (r.outcome.NoEnemyNamed? <==> LiveNpc(room) && Lower(room.npc.value.firstName) != Lower(name))
      && (r.outcome.Unarmed? <==> LiveNpc(room) && Lower(room.npc.value.firstName) == Lower(name) && !HasWeapon(s.inventory))
      && (r.outcome.Killed? <==> LiveNpc(room) && Lower(room.npc.value.firstName) == Lower(name) && HasWeapon(s.inventory))
    ensures r.outcome.NoEnemy? || r.outcome.NoEnemyNamed? || r.outcome.Unarmed? || r.outcome.Killed?
    ensures !r.outcome.Killed? ==> r.state == s
    ensures r.outcome.Killed? ==>
      && r.outcome.npc == s.rooms[s.room].npc.value.(dead := true)
      && r.state.rooms == s.rooms[s.room := s.rooms[s.room].(npc := None)]
      && r.state == s.(rooms := r.state.rooms)
  {
    var room := s.rooms[s.room];
    if !LiveNpc(room) then Step(s, NoEnemy)
    else
      var npc := room.npc.value;
      if Lower(npc.firstName) != Lower(name) then Step(s, NoEnemyNamed(name))
      else if !HasWeapon(s.inventory) then Step(s, Unarmed)
      else Step(s.(rooms := s.rooms[s.room := room.(npc := None)]), Killed(npc.(dead := true)))
  }

  /**
    `plant`: in a room whose name lower-cases to "reactor", with "C4" held,
    the C4 is used up and the room no longer requires anything.
   */
  function PlantStep(s: State): (r: Step)
    requires Ready(s)
    ensures Ready(r.state)
    ensures r.outcome.NotInReactor? <==> Lower(s.room) != "reactor"
    ensures r.outcome.NoC4? <==> Lower(s.room) == "reactor" && "C4" !in s.inventory
    ensures r.outcome.NotInReactor? || r.outcome.NoC4? || r.outcome.Planted?
    ensures !r.outcome.Planted? ==> r.state == s
    ensures r.outcome.Planted? ==>
      && r.state.inventory == s.inventory - {"C4"}
      && r.state.rooms == s.rooms[s.room := s.rooms[s.room].RemoveRequirements()]
      && r.state == s.(rooms := r.state.rooms, inventory := r.state.inventory)
  {
    var room := s.rooms[s.room];
    if Lower(room.name) != "reactor" then Step(s, NotInReactor)
    else if "C4" !in s.inventory then Step(s, NoC4)
    else Step(s.(inventory := s.inventory - {"C4"}, rooms := s.rooms[s.room := room.RemoveRequirements()]), Planted)
  }

  /**
    `drop`: in a room whose name lower-cases to "shield generator", with
    "Grenade" held, the grenade is used up; nothing else changes.
   */
  function DropStep(s: State): (r: Step)
    requires Ready(s)
    ensures Ready(r.state)
    ensures r.outcome.NotAtShieldGenerator? <==> Lower(s.room) != "shield generator"
    ensures r.outcome.NoGrenade? <==> Lower(s.room) == "shield generator" && "Grenade" !in s.inventory
    ensures r.outcome.NotAtShieldGenerator? || r.outcome.NoGrenade? || r.outcome.GrenadeThrown?
    ensures r.state == s.(inventory := if r.outcome.GrenadeThrown? then s.inventory - {"Grenade"} else s.inventory)
  {
    var room := s.rooms[s.room];
    if Lower(room.name) != "shield generator" then Step(s, NotAtShieldGenerator)
    else if "Grenade" !in s.inventory then Step(s, NoGrenade)
    else Step(s.(inventory := s.inventory - {"Grenade"}), GrenadeThrown)
  }

  // ---------------------------------------------------------------------
  // Commands and runs
  // ---------------------------------------------------------------------

  /** A player command, with the argument the engine method takes. */
  datatype Command =
    | GoTo(target: string)
    | TravelTo(index: int)
    | Talk(choose: nat)
    | Take(item: string)
    | Attack(name: string)
    | PlantC4
    | DropGrenade
    | EndGame

  function Apply(s: State, cmd: Command): (r: Step)
    requires Ready(s)
    ensures Ready(r.state)
    ensures r.outcome.IsRejection() ==> r.state == s
  {
    match cmd
    case GoTo(target) => MoveStep(s, target)
    case TravelTo(index) => TravelStep(s, index)
    case Talk(choose) => Step(s, InteractWith(s, choose))
    case Take(item) => PickupStep(s, item)
    case Attack(name) => KillStep(s, name)
    case PlantC4 => PlantStep(s)
    case DropGrenade => DropStep(s)
    case EndGame => Step(s, GameEnded)
  }

  /** The session after a sequence of commands. */
  function Run(s: State, cmds: seq<Command>): (t: State)
    requires Ready(s)
    ensures Ready(t)
    decreases |cmds|
  {
    if cmds == [] then s else Run(Apply(s, cmds[0]).state, cmds[1..])
  }

  /**
    How a room may change during play: only its items, its requirements and
    its NPC slot; items only leave, requirements are only cleared, an NPC
    only disappears.
   */
  ghost predicate RoomEvolves(a: Room, b: Room) {
    && b.(items := a.items, requirement := a.requirement, npc := a.npc) == a
    && (b.requirement == a.requirement || b.requirement == [])
    && (b.npc == a.npc || b.npc == None)
    && multiset(b.items) <= multiset(a.items)
  }

  /** How the session may change during play: the world only wears down and the log only grows. */
  ghost predicate Evolves(s: State, t: State) {
    && t.planets == s.planets && t.outro == s.outro
    && t.rooms.Keys == s.rooms.Keys
    && (forall k :: k in s.rooms ==> RoomEvolves(s.rooms[k], t.rooms[k]))
    && s.log <= t.log
  }

  lemma EvolvesTransitive(s: State, t: State, u: State)
    requires Evolves(s, t) && Evolves(t, u)
    ensures Evolves(s, u)
  {
    forall k | k in s.rooms ensures RoomEvolves(s.rooms[k], u.rooms[k]) {
      assert RoomEvolves(s.rooms[k], t.rooms[k]) && RoomEvolves(t.rooms[k], u.rooms[k]);
    }
  }

  /** Every command keeps the world and wears it down only as `Evolves` allows. */
  lemma ApplyEvolves(s: State, cmd: Command)
    requires Ready(s)
    ensures Evolves(s, Apply(s, cmd).state)
  {
    match cmd
    case GoTo(target) => MoveEvolves(s, target);
    case TravelTo(index) => TravelEvolves(s, index);
    case Take(item) => PickupEvolves(s, item);
    case Attack(name) => KillEvolves(s, name);
    case PlantC4 => PlantEvolves(s);
    case _ => RoomsKeptEvolves(s, Apply(s, cmd).state);
  }

  lemma MoveEvolves(s: State, target: string)
    requires Ready(s)
    ensures Evolves(s, MoveStep(s, target).state)
  {
    var m := FirstMatch(LocalExits(s), target);
    if m.Some? {
      assert s.log <= EnterStep(s, m.value.toRoom).state.log;
    }
    RoomsKeptEvolves(s, MoveStep(s, target).state);
  }

  lemma TravelEvolves(s: State, index: int)
    requires Ready(s)
    ensures Evolves(s, TravelStep(s, index).state)
  {
    if 0 <= index < |Destinations(s)| {
      assert s.log <= JourneyStep(s, Destinations(s)[index].toRoom).state.log;
    }
    RoomsKeptEvolves(s, TravelStep(s, index).state);
  }

  lemma PickupEvolves(s: State, item: string)
    requires Ready(s)
    ensures Evolves(s, PickupStep(s, item).state)
  {
    var room := s.rooms[s.room];
    if item in room.items {
      room.RemoveItemCount(item);
      OneRoomEvolves(s, PickupStep(s, item).state, room.RemoveItem(item));
    } else {
      RoomsKeptEvolves(s, s);
    }
  }

  lemma KillEvolves(s: State, name: string)
    requires Ready(s)
    ensures Evolves(s, KillStep(s, name).state)
  {
    if KillStep(s, name).outcome.Killed? {
      OneRoomEvolves(s, KillStep(s, name).state, s.rooms[s.room].(npc := None));
    } else {
      RoomsKeptEvolves(s, s);
    }
  }

  lemma PlantEvolves(s: State)
    requires Ready(s)
    ensures Evolves(s, PlantStep(s).state)
  {
    if PlantStep(s).outcome.Planted? {
      OneRoomEvolves(s, PlantStep(s).state, s.rooms[s.room].RemoveRequirements());
    } else {
      RoomsKeptEvolves(s, s);
    }
  }

  /** A step that keeps every room and only extends the log is an evolution. */
  lemma RoomsKeptEvolves(s: State, t: State)
    requires t.planets == s.planets && t.outro == s.outro && t.rooms == s.rooms && s.log <= t.log
    ensures Evolves(s, t)
  {
    forall k | k in s.rooms ensures RoomEvolves(s.rooms[k], t.rooms[k]) {
      assert s.rooms[k].(items := s.rooms[k].items, requirement := s.rooms[k].requirement, npc := s.rooms[k].npc) == s.rooms[k];
    }
  }

  /** A step that wears down only the player's room, keeping the log, is an evolution. */
  lemma OneRoomEvolves(s: State, t: State, r: Room)
    requires s.room in s.rooms && RoomEvolves(s.rooms[s.room], r)
    requires t.planets == s.planets && t.outro == s.outro && t.log == s.log && t.rooms == s.rooms[s.room := r]
    ensures Evolves(s, t)
  {
    forall k | k in s.rooms ensures RoomEvolves(s.rooms[k], t.rooms[k]) {
      if k != s.room {
        assert s.rooms[k].(items := s.rooms[k].items, requirement := s.rooms[k].requirement, npc := s.rooms[k].npc) == s.rooms[k];
      }
    }
  }

  /**
    Over any run: every room stays, items only leave rooms, a cleared
    requirement list stays cleared, an emptied NPC slot stays empty, and the
    objective log only grows.
   */
  lemma {:induction false} RunEvolves(s: State, cmds: seq<Command>)
    requires Ready(s)
    ensures Evolves(s, Run(s, cmds))
    decreases |cmds|
  {
    if cmds == [] {
      forall k | k in s.rooms ensures RoomEvolves(s.rooms[k], s.rooms[k]) {
        assert s.rooms[k].(items := s.rooms[k].items, requirement := s.rooms[k].requirement, npc := s.rooms[k].npc) == s.rooms[k];
      }
    } else {
      var s1 := Apply(s, cmds[0]).state;
      ApplyEvolves(s, cmds[0]);
      RunEvolves(s1, cmds[1..]);
      EvolvesTransitive(s, s1, Run(s1, cmds[1..]));
    }
  }

  /** Once a room's requirements are cleared (planting the C4), the room stays open. */
  lemma UnlockIsPermanent(s: State, cmds: seq<Command>, k: string)
    requires Ready(s) && k in s.rooms && s.rooms[k].requirement == []
    ensures k in Run(s, cmds).rooms && Run(s, cmds).rooms[k].requirement == []
  {
    RunEvolves(s, cmds);
  }

  /** Once a room's NPC slot is empty (its NPC killed), no NPC comes back. */
  lemma NpcGoneForGood(s: State, cmds: seq<Command>, k: string)
    requires Ready(s) && k in s.rooms && s.rooms[k].npc == None
    ensures k in Run(s, cmds).rooms && Run(s, cmds).rooms[k].npc == None
  {
    RunEvolves(s, cmds);
  }

  /** A room in the loaded world replaced by a copy that differs only in items, requirements or a cleared NPC. */
  lemma ReplaceRoomKeepsLoaded(planets: seq<Planet>, rooms: map<string, Room>, k: string, r: Room)
    requires Loaded(planets, rooms) && k in rooms
    requires r.name == rooms[k].name && r.planet == rooms[k].planet && r.connections == rooms[k].connections
    requires r.npc == rooms[k].npc || r.npc == None
    ensures Loaded(planets, rooms[k := r])
  {
    assert ConnectionsResolve(rooms, k);
    SwapRoomKeepsLoaded(planets, rooms, k, r);
  }

  lemma EnterKeepsWf(s: State, name: string)
    requires StateWf(s)
    ensures StateWf(EnterStep(s, name).state)
  {
  }

  lemma MoveKeepsWf(s: State, target: string)
    requires StateWf(s)
    ensures StateWf(MoveStep(s, target).state)
  {
    var m := FirstMatch(LocalExits(s), target);
    if m.Some? {
      EnterKeepsWf(s, m.value.toRoom);
    }
  }

  lemma TravelKeepsWf(s: State, index: int)
    requires StateWf(s)
    ensures StateWf(TravelStep(s, index).state)
  {
    if 0 <= index < |Destinations(s)| {
      JourneyKeepsWf(s, Destinations(s)[index].toRoom);
    }
  }

  lemma JourneyKeepsWf(s: State, name: string)
    requires StateWf(s)
    ensures StateWf(JourneyStep(s, name).state)
  {
    var r := JourneyStep(s, name);
    if r.outcome.Traveled? {
      var i :| 0 <= i < |s.planets| && s.planets[i].name == r.state.planet && r.state.room in s.planets[i].roomNames;
      assert HasPlanet(s.planets, r.state.planet);
    }
  }

  lemma PickupKeepsWf(s: State, item: string)
    requires StateWf(s)
    ensures StateWf(PickupStep(s, item).state)
  {
    if item in s.rooms[s.room].items {
      ReplaceRoomKeepsLoaded(s.planets, s.rooms, s.room, s.rooms[s.room].RemoveItem(item));
    }
  }

  lemma KillKeepsWf(s: State, name: string)
    requires StateWf(s)
    ensures StateWf(KillStep(s, name).state)
  {
    if KillStep(s, name).outcome.Killed? {
      ReplaceRoomKeepsLoaded(s.planets, s.rooms, s.room, s.rooms[s.room].(npc := None));
    }
  }

  lemma PlantKeepsWf(s: State)
    requires StateWf(s)
    ensures StateWf(PlantStep(s).state)
  {
    if PlantStep(s).outcome.Planted? {
      ReplaceRoomKeepsLoaded(s.planets, s.rooms, s.room, s.rooms[s.room].RemoveRequirements());
    }
  }

  /** Every command keeps the session well formed. */
  lemma ApplyKeepsWf(s: State, cmd: Command)
    requires StateWf(s)
    ensures StateWf(Apply(s, cmd).state)
  {
    match cmd
    case GoTo(target) => MoveKeepsWf(s, target);
    case TravelTo(index) => TravelKeepsWf(s, index);
    case Take(item) => PickupKeepsWf(s, item);
    case Attack(name) => KillKeepsWf(s, name);
    case PlantC4 => PlantKeepsWf(s);
    case DropGrenade => InventoryKeepsWf(s, Apply(s, cmd).state.inventory);
    case _ =>
  }

  /** The inventory plays no part in the world's well-formedness. */
  lemma InventoryKeepsWf(s: State, inventory: set<string>)
    requires StateWf(s)
    ensures StateWf(s.(inventory := inventory))
  {
  }

  lemma {:induction false} RunKeepsWf(s: State, cmds: seq<Command>)
    requires StateWf(s)
    ensures StateWf(Run(s, cmds))
    decreases |cmds|
  {
    if cmds != [] {
      ApplyKeepsWf(s, cmds[0]);
      RunKeepsWf(Apply(s, cmds[0]).state, cmds[1..]);
    }
  }

  /**
    Planting the C4 opens the reactor for good: whatever is done afterwards,
    entering it is never refused for requirements.
   */
  lemma PlantedRoomStaysOpen(s: State, cmds: seq<Command>)
    requires Ready(s) && PlantStep(s).outcome.Planted?
    ensures !EnterStep(Run(PlantStep(s).state, cmds), s.room).outcome.RequirementsNotMet?
  {
    var t := PlantStep(s).state;
    UnlockIsPermanent(t, cmds, s.room);
  }

  /**
    A two-room Earth for the scenarios below: the player stands in
    "Quarters", which holds `items` and has a door to "Reactor", which
    requires `needs`.
   */
  function ReactorWorld(items: seq<string>, needs: seq<string>, inventory: set<string>): State {
    State([Planet("Earth", None, ["Quarters", "Reactor"])],
          map["Quarters" := Room("Quarters", "", "Earth", [Connection("Quarters", "Reactor", "door")], items, [], None, None, None),
              "Reactor" := Room("Reactor", "", "Earth", [], [], needs, None, None, None)],
          [], [InitialObjective], "Earth", "Quarters", inventory)
  }

  /** In that world, `move Reactor` goes through the door and finds the room listed. */
  lemma ReactorDoor(items: seq<string>, needs: seq<string>, inventory: set<string>)
    ensures var w := ReactorWorld(items, needs, inventory);
      Ready(w) && MoveStep(w, "Reactor") == EnterStep(w, "Reactor") && Listed(w.planets, "Reactor")
  {
    var w := ReactorWorld(items, needs, inventory);
    var door := Connection("Quarters", "Reactor", "door");
    assert LocalExits(w) == [door] by {
      assert !door.IsInterplanetary();
      assert Filtered([door], false) == [door] + Filtered([], false);
    }
    assert FirstMatch([door], "Reactor") == Some(door);
    assert "Reactor" in w.planets[0].roomNames;
  }

  /**
    The reactor scenario: from "Quarters" without "C4", moving to the
    "Reactor" (which requires "C4") is refused and nothing changes; picking
    up the C4 lying in "Quarters" takes it out of the room; then the move
    succeeds, and planting uses the C4 up and clears the reactor's
    requirements.
   */
  lemma ReactorScenario()
    ensures
      var s0 := ReactorWorld(["C4"], ["C4"], {});
      var s1 := PickupStep(s0, "C4").state;
      var s2 := MoveStep(s1, "Reactor").state;
      && MoveStep(s0, "Reactor") == Step(s0, RequirementsNotMet("Reactor", "C4"))
      && s1 == ReactorWorld([], ["C4"], {"C4"})
      && MoveStep(s1, "Reactor").outcome.Moved? && s2.room == "Reactor"
      && PlantStep(s2).outcome == Planted
      && "C4" !in PlantStep(s2).state.inventory && PlantStep(s2).state.rooms["Reactor"].requirement == []
  {
    var s0 := ReactorWorld(["C4"], ["C4"], {});
    ReactorDoor(["C4"], ["C4"], {});
    assert "C4" in s0.rooms["Reactor"].requirement && "C4" !in s0.inventory;
    ReactorPickup();
    ReactorPlant(PickupStep(s0, "C4").state);
  }

  /** Picking up the C4 in that world empties "Quarters" and changes nothing else but the inventory. */
  lemma ReactorPickup()
    ensures PickupStep(ReactorWorld(["C4"], ["C4"], {}), "C4").state == ReactorWorld([], ["C4"], {"C4"})
  {
    var s0 := ReactorWorld(["C4"], ["C4"], {});
    var s1 := ReactorWorld([], ["C4"], {"C4"});
    var q := s0.rooms["Quarters"];
    assert q.RemoveItem("C4") == s1.rooms["Quarters"] by {
      assert q.RemoveItem("C4").items == [];
    }
    assert s0.rooms["Quarters" := q.RemoveItem("C4")] == s1.rooms;
    assert s0.inventory + {"C4"} == s1.inventory;
  }

  /** The last two steps of the scenario: entering the reactor with the C4, then planting it. */
  lemma ReactorPlant(s1: State)
    requires s1 == ReactorWorld([], ["C4"], {"C4"})
    ensures var s2 := MoveStep(s1, "Reactor").state;
      && MoveStep(s1, "Reactor").outcome.Moved? && s2.room == "Reactor"
      && PlantStep(s2).outcome == Planted
      && "C4" !in PlantStep(s2).state.inventory && PlantStep(s2).state.rooms["Reactor"].requirement == []
  {
    ReactorDoor([], ["C4"], {"C4"});
    LowerReactor();
    var s2 := MoveStep(s1, "Reactor").state;
    assert s2.room == "Reactor";
  }

  lemma LowerReactor()
    ensures Lower("Reactor") == "reactor" && Lower("Reactor") != "front gate"
  {
    assert LowerChar('R') == 'r';
  }

  /**
    A refused move names the first required item, which the player may
    already hold: with "C4" held and "Key" missing, the refusal names "C4".
   */
  lemma RefusalNamesFirstRequirement()
    ensures var s := ReactorWorld([], ["C4", "Key"], {"C4"});
      Ready(s) && MoveStep(s, "Reactor").outcome == RequirementsNotMet("Reactor", "C4") && "C4" in s.inventory
  {
    var s := ReactorWorld([], ["C4", "Key"], {"C4"});
    ReactorDoor([], ["C4", "Key"], {"C4"});
    assert "Key" in s.rooms["Reactor"].requirement && "Key" !in s.inventory;
  }

  /** After a kill, no one is left to talk to or to kill in that room. */
  lemma KillLeavesNoOne(s: State, name: string, choose: nat, other: string)
    requires Ready(s) && KillStep(s, name).outcome.Killed?
    ensures InteractWith(KillStep(s, name).state, choose) == NoOneToInteract
    ensures KillStep(KillStep(s, name).state, other).outcome == NoEnemy
  {
  }

  // ---------------------------------------------------------------------
  // The engine object
  // ---------------------------------------------------------------------

  /** `GameEngine`: the game, and the player once `initialize_game` has run. */
  class GameEngine {
    const game: Game
    var player: Player?

    /** The world as loading leaves it; the objective log non-empty and free of duplicates. */
    ghost predicate WorldReady()
      reads this, game
    {
      Loaded(game.planets, game.rooms) && |game.currentObjective| > 0 && NoDuplicates(game.currentObjective)
    }

    predicate InSession()
      reads this, player
    {
      player != null && player.currentRoom.Some? && player.currentPlanet.Some?
    }

    /** The session the game and the player hold. */
    function Snapshot(): State
      requires InSession()
      reads this, game, player
    {
      State(game.planets, game.rooms, game.outro, game.currentObjective,
            player.currentPlanet.value, player.currentRoom.value, player.inventory)
    }

    /**
      The session invariant the commands need: a placed player shared with
      the game, standing in a known room, and a non-empty, duplicate-free
      objective log.  That every command also keeps the loaded world well
      formed is `ApplyKeepsWf`, about the step each method is proved to take.
     */
    ghost predicate Valid()
      reads this, game, player
    {
      InSession() && game.player == player && game.Valid() && player.currentRoom.value in game.rooms
    }

    /**
      `GameEngine()`: a new game, loaded from the world document (the story
      supplies the outro lines); no player yet.  A planet with an invalid
      name would make the constructor raise, so every planet name is valid.
     */
    constructor (world: WorldData, outro: seq<string>)
      requires forall i :: 0 <= i < |world.planets| ==> IsValidName(world.planets[i].name)
      ensures WorldReady() && player == null && game.player == null
      ensures game.planets == Load([], map[], world).planets && game.rooms == Load([], map[], world).rooms
      ensures game.outro == outro && game.currentObjective == [InitialObjective]
    {
      var g := new Game(outro);
      var ok := g.CreateGame(world);
      LoadFailsIffInvalidName(LoadState([], map[], [], false), world.planets);
      LoadKeepsLoaded([], map[], world);
      game := g;
      player := null;
    }

    /**
      `initialize_game`: a new player, shared with the game, placed in
      "Quarters" on "Earth".  Without an "Earth" planet, or without a
      "Quarters" room on it, the source raises a KeyError; that is `None`,
      with the player created and placed as far as the source got.
     */
    method InitializeGame(name: string) returns (status: Option<RoomStatus>)
      requires WorldReady()
      modifies this`player, game`player
      ensures fresh(player) && player.name == name && player.inventory == {} && game.player == player
      ensures WorldReady()
      ensures status.Some? <==> PlanetNamed(game.planets, "Earth").Some? && "Quarters" in PlanetNamed(game.planets, "Earth").value.roomNames
      ensures status.Some? ==> Valid() && Snapshot().room == "Quarters" && Snapshot().planet == "Earth" && status.value == Status(Snapshot())
      ensures status.None? ==> player.currentRoom == None && (player.currentPlanet.Some? <==> HasPlanet(game.planets, "Earth"))
    {
      var p := new Player(name);
      player := p;
      game.player := p;
      var earth := PlanetNamed(game.planets, "Earth");
      if earth.None? {
        return None;
      }
      p.currentPlanet := Some("Earth");
      if "Quarters" !in earth.value.roomNames {
        return None;
      }
      p.currentRoom := Some("Quarters");
      return Some(Status(Snapshot()));
    }

    /** `get_room_status`. */
    method GetRoomStatus() returns (status: RoomStatus)
      requires Valid()
      ensures status == Status(Snapshot())
    {
      status := Status(Snapshot());
    }

    /** `get_available_actions` for the player's room. */
    method GetAvailableActions() returns (actions: seq<Action>)
      requires Valid()
      ensures actions == AvailableActions(game.rooms[player.currentRoom.value])
    {
      actions := AvailableActions(game.rooms[player.currentRoom.value]);
    }

    /** `move`: a scan over the room's local connections for the first match. */
    method Move(target: string) returns (o: Outcome)
      requires Valid()
      modifies game`currentObjective, player`currentRoom
      ensures Valid()
      ensures Snapshot() == MoveStep(old(Snapshot()), target).state
      ensures o == MoveStep(old(Snapshot()), target).outcome
    {
      var room := game.rooms[player.currentRoom.value];
      var conns := Filtered(room.connections, false);
      var i := 0;
      while i < |conns|
        invariant 0 <= i <= |conns|
        invariant FirstMatch(conns[i..], target) == FirstMatch(conns, target)
      {
        var c := conns[i];
        if Lower(c.toRoom) == Lower(target) {
          o := EnterRoom(c.toRoom);
          return;
        }
        assert conns[i..][1..] == conns[i + 1..];
        i := i + 1;
      }
      return NoConnection(target);
    }

    /** `move` once the matching connection is found: lookup, requirement check, entry, death teleport. */
    method EnterRoom(name: string) returns (o: Outcome)
      requires Valid()
      modifies game`currentObjective, player`currentRoom
      ensures Valid()
      ensures Snapshot() == EnterStep(old(Snapshot()), name).state
      ensures o == EnterStep(old(Snapshot()), name).outcome
    {
      ghost var s := Snapshot();
      var next := game.FindRoomByName(name);
      if next.None? {
        return RoomNotFound(name);
      }
      var nextRoom := next.value;
      if !game.CheckRoomRequirements(nextRoom) {
        return RequirementsNotMet(nextRoom.name, nextRoom.requirement[0]);
      }
      player.currentRoom := Some(nextRoom.name);
      game.UpdateCurrentObjective(nextRoom);
      if Lower(nextRoom.name) == "front gate" {
        var ok := game.KillPlayer();
        if !ok {
          assert Snapshot() == EnterStep(s, name).state;
          return KeyErrorRaised("Ascend");
        }
      }
      assert Snapshot() == EnterStep(s, name).state;
      return Moved(nextRoom.name, Status(Snapshot()));
    }

    /** `travel`: the interplanetary connection at `index`. */
    method Travel(index: int) returns (o: Outcome)
      requires Valid()
      modifies game`currentObjective, player`currentRoom, player`currentPlanet
      ensures Valid()
      ensures Snapshot() == TravelStep(old(Snapshot()), index).state
      ensures o == TravelStep(old(Snapshot()), index).outcome
    {
      var room := game.rooms[player.currentRoom.value];
      var dests := Filtered(room.connections, true);
      if !(0 <= index < |dests|) {
        return InvalidDestination;
      }
      o := Journey(dests[index].toRoom);
    }

    /** `travel` once the destination is chosen: lookup, requirement check, the win, arrival. */
    method Journey(name: string) returns (o: Outcome)
      requires Valid()
      modifies game`currentObjective, player`currentRoom, player`currentPlanet
      ensures Valid()
      ensures Snapshot() == JourneyStep(old(Snapshot()), name).state
      ensures o == JourneyStep(old(Snapshot()), name).outcome
    {
      ghost var s := Snapshot();
      var room := game.rooms[player.currentRoom.value];
      var next := game.FindRoomByName(name);
      if next.None? {
        return RoomNotFound(name);
      }
      var nextRoom := next.value;
      if !game.CheckRoomRequirements(nextRoom) {
        return TravelBlocked(nextRoom.name, nextRoom.requirement);
      }
      if Lower(room.name) == "shuttle bay" && Lower(nextRoom.name) == "briefing room" {
        return Won(WinText(game.outro));
      }
      var planet := PlanetContaining(game.planets, nextRoom.name);
      ghost var t := s.(room := nextRoom.name, planet := planet.name, log := AppendObjective(s.log, nextRoom.objective));
      assert JourneyStep(s, name).state == t;
      player.currentRoom := Some(nextRoom.name);
      player.currentPlanet := Some(planet.name);
      game.UpdateCurrentObjective(nextRoom);
      assert Snapshot() == t;
      return Traveled(nextRoom.name, Status(Snapshot()));
    }

    /** `interact`; `choose` stands for the random choice of the greeting. */
    method Interact(choose: nat) returns (o: Outcome)
      requires Valid()
      ensures o == InteractWith(Snapshot(), choose)
    {
      o := InteractWith(Snapshot(), choose);
    }

    /** `pickup`. */
    method Pickup(item: string) returns (o: Outcome)
      requires Valid()
      modifies game`rooms, player`inventory
      ensures Valid()
      ensures Snapshot() == PickupStep(old(Snapshot()), item).state
      ensures o == PickupStep(old(Snapshot()), item).outcome
    {
      ghost var s := Snapshot();
      var key := player.currentRoom.value;
      var room := game.rooms[key];
      if item in room.items {
        ghost var t := s.(rooms := s.rooms[key := room.RemoveItem(item)], inventory := s.inventory + {item});
        assert PickupStep(s, item).state == t;
        game.rooms := game.rooms[key := room.RemoveItem(item)];
        player.AddItem(item);
        assert Snapshot() == t;
        return PickedUp(item);
      }
      return NotInRoom(item);
    }

    /** `kill`. */
    method Kill(enemyName: string) returns (o: Outcome)
      requires Valid()
      modifies game`rooms
      ensures Valid()
      ensures Snapshot() == KillStep(old(Snapshot()), enemyName).state
      ensures o == KillStep(old(Snapshot()), enemyName).outcome
    {
      ghost var s := Snapshot();
      var key := player.currentRoom.value;
      var room := game.rooms[key];
      if !LiveNpc(room) {
        return NoEnemy;
      }
      var npc := room.npc.value;
      if Lower(npc.firstName) != Lower(enemyName) {
        return NoEnemyNamed(enemyName);
      }
      if !HasWeapon(player.inventory) {
        return Unarmed;
      }
      npc := npc.(dead := true);
      game.rooms := game.rooms[key := room.(npc := None)];
      assert Snapshot() == KillStep(s, enemyName).state;
      return Killed(npc);
    }

    /** `plant`. */
    method Plant() returns (o: Outcome)
      requires Valid()
      modifies game`rooms, player`inventory
      ensures Valid()
      ensures Snapshot() == PlantStep(old(Snapshot())).state
      ensures o == PlantStep(old(Snapshot())).outcome
    {
      ghost var s := Snapshot();
      var key := player.currentRoom.value;
      var room := game.rooms[key];
      if Lower(room.name) != "reactor" {
        return NotInReactor;
      }
      if "C4" !in player.inventory {
        return NoC4;
      }
      player.inventory := player.inventory - {"C4"};
      game.rooms := game.rooms[key := room.RemoveRequirements()];
      assert Snapshot() == PlantStep(s).state;
      return Planted;
    }

    /** `drop`. */
    method Drop() returns (o: Outcome)
      requires Valid()
      modifies player`inventory
      ensures Valid()
      ensures Snapshot() == DropStep(old(Snapshot())).state
      ensures o == DropStep(old(Snapshot())).outcome
    {
      var room := game.rooms[player.currentRoom.value];
      if Lower(room.name) != "shield generator" {
        return NotAtShieldGenerator;
      }
      if "Grenade" !in player.inventory {
        return NoGrenade;
      }
      player.inventory := player.inventory - {"Grenade"};
      return GrenadeThrown;
    }

    /** `quit_game`: the session ends; nothing changes. */
    method QuitGame() returns (o: Outcome)
      ensures o.GameEnded? && !o.IsRejection()
    {
      return GameEnded;
    }
  }
}
