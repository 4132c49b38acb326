/**
  The game world (game.py, class `Game`): building the world from an
  already-parsed world document in two passes, looking rooms up by name,
  the objective log, the requirement check and the scripted events.
 */
module World {
  import opened Text
  import opened Entities

  // ---------------------------------------------------------------------
  // The parsed world document
  // ---------------------------------------------------------------------

  /** A connection declared inside a room: target room name and kind. */
  datatype ExitData = ExitData(toRoom: string, kind: string)

  datatype NpcData = NpcData(
    firstName: string,
    lastName: string,
    hostile: bool,
    inventory: seq<string>,
    dialogues: seq<Topic>)

  /** A room entry; absent optional lists are empty, absent optional values `None`. */
  datatype RoomData = RoomData(
    name: string,
    description: string,
    objective: Option<string>,
    requirement: seq<string>,
    items: seq<string>,
    picture: Option<string>,
    npc: Option<NpcData>,
    exits: seq<ExitData>)

  datatype PlanetData = PlanetData(name: string, picture: Option<string>, rooms: seq<RoomData>)

  /** A connection with both endpoints named: queued room exits and world-level connections. */
  datatype ConnectionData = ConnectionData(fromRoom: string, toRoom: string, kind: string)

  datatype WorldData = WorldData(planets: seq<PlanetData>, connections: seq<ConnectionData>)

  /** The objective the log starts with. */
  const InitialObjective: string := "Go to the briefing room and talk to General Hammond."

  // ---------------------------------------------------------------------
  // Well-formedness of the world
  // ---------------------------------------------------------------------

  /** Every room is filed under its own name. */
  predicate NamesAreKeys(rooms: map<string, Room>) {
    forall k :: k in rooms ==> rooms[k].name == k
  }

  /** Every room a planet lists is in the room arena. */
  predicate PlanetRoomsKnown(planets: seq<Planet>, rooms: map<string, Room>) {
    forall i, k :: 0 <= i < |planets| && k in planets[i].roomNames ==> k in rooms
  }

  /** What the room lookups need of the world. */
  predicate WorldWf(planets: seq<Planet>, rooms: map<string, Room>) {
    NamesAreKeys(rooms) && PlanetRoomsKnown(planets, rooms)
  }

  /** Some planet lists a room of that name. */
  predicate Listed(planets: seq<Planet>, name: string) {
    exists i :: 0 <= i < |planets| && name in planets[i].roomNames
  }

  predicate HasPlanet(planets: seq<Planet>, name: string) {
    exists i :: 0 <= i < |planets| && planets[i].name == name
  }

  /** Every connection of room `k` leaves `k` and names a room that exists. */
  predicate ConnectionsResolve(rooms: map<string, Room>, k: string)
    requires k in rooms
  {
    forall c :: c in rooms[k].connections ==> c.fromRoom == k && c.toRoom in rooms
  }

  predicate PlanetNamesUnique(planets: seq<Planet>) {
    forall i, j :: 0 <= i < j < |planets| ==> planets[i].name != planets[j].name
  }

  predicate PlanetNamesValid(planets: seq<Planet>) {
    forall i :: 0 <= i < |planets| ==> IsValidName(planets[i].name)
  }

  /** A room listed by a planet knows that planet as its own. */
  predicate RoomsKnowTheirPlanet(planets: seq<Planet>, rooms: map<string, Room>)
    requires PlanetRoomsKnown(planets, rooms)
  {
    forall i, k :: 0 <= i < |planets| && k in planets[i].roomNames ==> rooms[k].planet == planets[i].name
  }

  /** Every room in the arena is listed by some planet. */
  predicate EveryRoomOnAPlanet(planets: seq<Planet>, rooms: map<string, Room>) {
    forall k :: k in rooms ==> Listed(planets, k)
  }

  predicate AllConnectionsResolve(rooms: map<string, Room>) {
    forall k :: k in rooms ==> ConnectionsResolve(rooms, k)
  }

  /** Every NPC stands, alive, in the room that holds it. */
  predicate NpcsAtHome(rooms: map<string, Room>) {
    forall k :: k in rooms && rooms[k].npc.Some? ==> rooms[k].npc.value.room == k && !rooms[k].npc.value.dead
  }

  /** The world as the two-pass load leaves it. */
  ghost predicate Loaded(planets: seq<Planet>, rooms: map<string, Room>) {
    && WorldWf(planets, rooms)
    && PlanetNamesUnique(planets)
    && PlanetNamesValid(planets)
    && RoomsKnowTheirPlanet(planets, rooms)
    && EveryRoomOnAPlanet(planets, rooms)
    && AllConnectionsResolve(rooms)
    && NpcsAtHome(rooms)
  }

  /** In a loaded world a room is listed by one planet only. */
  lemma RoomOnOnePlanet(planets: seq<Planet>, rooms: map<string, Room>, k: string, i: nat, j: nat)
    requires Loaded(planets, rooms)
    requires i < |planets| && j < |planets| && k in planets[i].roomNames && k in planets[j].roomNames
    ensures i == j
  {
    assert rooms[k].planet == planets[i].name;
    assert rooms[k].planet == planets[j].name;
  }

  // ---------------------------------------------------------------------
  // First pass: planets, rooms and NPCs
  // ---------------------------------------------------------------------

  /** The state `create_game` builds: planets, the room arena, the queued connections. */
  datatype LoadState = LoadState(
    planets: seq<Planet>,
    rooms: map<string, Room>,
    pending: seq<ConnectionData>,
    failed: bool)

  /** A fresh NPC is alive and knows its room. */
  function NewNpc(d: NpcData, roomName: string): Npc {
    Npc(d.firstName, d.lastName, roomName, d.hostile, false, d.inventory, d.dialogues)
  }

  /** A fresh room has no connections yet; those are wired in the second pass. */
  function NewRoom(d: RoomData, planetName: string): Room {
    Room(d.name, d.description, planetName, [], d.items, d.requirement, d.objective,
         if d.npc.Some? then Some(NewNpc(d.npc.value, d.name)) else None, d.picture)
  }

  /** A room's declared exits, queued with the room as their source. */
  function PendingExits(d: RoomData): (r: seq<ConnectionData>)
    ensures forall c :: c in r ==> c.fromRoom == d.name
  {
    seq(|d.exits|, i requires 0 <= i < |d.exits| => ConnectionData(d.name, d.exits[i].toRoom, d.exits[i].kind))
  }

  /**
    One room entry of the planet being loaded (the last one).  A name that is
    already taken anywhere in the world is skipped with everything it carries.
   */
  function LoadRoom(st: LoadState, d: RoomData): (r: LoadState)
    requires |st.planets| > 0
    ensures d.name in st.rooms ==> r == st
    ensures d.name !in st.rooms ==> r.rooms == st.rooms[d.name := NewRoom(d, st.planets[|st.planets| - 1].name)]
    ensures |r.planets| == |st.planets| && r.failed == st.failed
    ensures forall i :: 0 <= i < |st.planets| - 1 ==> r.planets[i] == st.planets[i]
    ensures r.planets[|st.planets| - 1].name == st.planets[|st.planets| - 1].name
    ensures d.name !in st.rooms ==>
      r.planets[|st.planets| - 1] == st.planets[|st.planets| - 1].AddRoom(d.name) &&
      r.pending == st.pending + PendingExits(d)
  {
    if d.name in st.rooms then st
    else
      var last := |st.planets| - 1;
      st.(planets := st.planets[last := st.planets[last].AddRoom(d.name)],
          rooms := st.rooms[d.name := NewRoom(d, st.planets[last].name)],
          pending := st.pending + PendingExits(d))
  }

  /**
    A planet's room entries, in order.  Rooms already filed stay as they
    are, every entry's name ends up filed, only the last planet's room list
    grows, and exits are only ever queued.
   */
  function LoadRooms(st: LoadState, ds: seq<RoomData>): (r: LoadState)
    requires |st.planets| > 0
    ensures |r.planets| == |st.planets| && r.failed == st.failed
    ensures r.planets[..|st.planets| - 1] == st.planets[..|st.planets| - 1]
    ensures var last := |st.planets| - 1;
      r.planets[last].name == st.planets[last].name && r.planets[last].picture == st.planets[last].picture &&
      st.planets[last].roomNames <= r.planets[last].roomNames
    ensures st.rooms.Keys <= r.rooms.Keys && forall k :: k in st.rooms ==> r.rooms[k] == st.rooms[k]
    ensures forall i :: 0 <= i < |ds| ==> ds[i].name in r.rooms
    ensures st.pending <= r.pending
    decreases |ds|
  {
    if ds == [] then st else LoadRooms(LoadRoom(st, ds[0]), ds[1..])
  }

  /**
    One planet entry.  A planet name already loaded is skipped with all of
    its rooms; an invalid new name makes the `Planet` constructor raise,
    which stops the load (`failed`).
   */
  function LoadPlanet(st: LoadState, d: PlanetData): (r: LoadState)
    ensures HasPlanet(st.planets, d.name) ==> r == st
    ensures !HasPlanet(st.planets, d.name) && !IsValidName(d.name) ==> r == st.(failed := true)
    ensures !HasPlanet(st.planets, d.name) && IsValidName(d.name) ==>
      && r.failed == st.failed
      && st.planets <= r.planets && |r.planets| == |st.planets| + 1
      && r.planets[|st.planets|].name == d.name && r.planets[|st.planets|].picture == d.picture
      && (forall k :: k in st.rooms ==> k in r.rooms && r.rooms[k] == st.rooms[k])
      && (forall i :: 0 <= i < |d.rooms| ==> d.rooms[i].name in r.rooms)
  {
    if HasPlanet(st.planets, d.name) then st
    else match NewPlanet(d.name, d.picture)
      case None => st.(failed := true)
      case Some(p) => LoadRooms(st.(planets := st.planets + [p]), d.rooms)
  }

  /** The first pass over all planet entries, stopping at the first raise. */
  function LoadPlanets(st: LoadState, ds: seq<PlanetData>): LoadState
    decreases |ds|
  {
    if ds == [] || st.failed then st else LoadPlanets(LoadPlanet(st, ds[0]), ds[1..])
  }

  // ---------------------------------------------------------------------
  // Second pass: connections
  // ---------------------------------------------------------------------

  /** One queued connection: appended to its source only when both endpoints exist. */
  function Wire(rooms: map<string, Room>, c: ConnectionData): map<string, Room> {
    if c.fromRoom in rooms && c.toRoom in rooms then
      rooms[c.fromRoom := rooms[c.fromRoom].AddConnection(Connection(c.fromRoom, rooms[c.toRoom].name, c.kind))]
    else rooms
  }

  function WireAll(rooms: map<string, Room>, cs: seq<ConnectionData>): map<string, Room>
    decreases |cs|
  {
    if cs == [] then rooms else WireAll(Wire(rooms, cs[0]), cs[1..])
  }

  /** `create_game` on a parsed world document, from the game's current planets and rooms. */
  function Load(planets: seq<Planet>, rooms: map<string, Room>, world: WorldData): LoadState {
    var st := LoadPlanets(LoadState(planets, rooms, [], false), world.planets);
    if st.failed then st
    else st.(rooms := WireAll(WireAll(st.rooms, st.pending), world.connections))
  }

  /** The connections wiring gives room `k`: those leaving `k` whose both ends exist, in order. */
  function WiredInto(keys: set<string>, cs: seq<ConnectionData>, k: string): seq<Connection>
    decreases |cs|
  {
    if cs == [] then [] else WiredBy(keys, cs[0], k) + WiredInto(keys, cs[1..], k)
  }

  /** The connection one queued entry gives room `k`, if any. */
  function WiredBy(keys: set<string>, c: ConnectionData, k: string): seq<Connection> {
    if c.fromRoom == k && k in keys && c.toRoom in keys then [Connection(k, c.toRoom, c.kind)] else []
  }

  // ---------------------------------------------------------------------
  // Properties of the load
  // ---------------------------------------------------------------------

  /** Wiring keeps every room and its name, and only appends connections. */
  lemma {:induction false} WireAllKeepsRooms(rooms: map<string, Room>, cs: seq<ConnectionData>)
    requires NamesAreKeys(rooms)
    ensures WireAll(rooms, cs).Keys == rooms.Keys
    ensures NamesAreKeys(WireAll(rooms, cs))
    decreases |cs|
  {
    if cs != [] {
      WireAllKeepsRooms(Wire(rooms, cs[0]), cs[1..]);
    }
  }

  /**
    Room `k` ends the second pass with its own connections followed by every
    queued connection that leaves `k` and whose target exists, in declaration
    order; nothing else about the room changes.
   */
  lemma {:induction false} WireAllAppends(rooms: map<string, Room>, cs: seq<ConnectionData>, k: string)
    requires NamesAreKeys(rooms) && k in rooms
    ensures k in WireAll(rooms, cs)
    ensures WireAll(rooms, cs)[k] == rooms[k].(connections := rooms[k].connections + WiredInto(rooms.Keys, cs, k))
    decreases |cs|
  {
    if cs == [] {
      assert rooms[k].connections + [] == rooms[k].connections;
    } else {
      var r1 := Wire(rooms, cs[0]);
      var first := WiredBy(rooms.Keys, cs[0], k);
      var rest := WiredInto(rooms.Keys, cs[1..], k);
      WireOne(rooms, cs[0], k);
      WireAllAppends(r1, cs[1..], k);
      calc {
        WireAll(rooms, cs)[k];
        WireAll(r1, cs[1..])[k];
        r1[k].(connections := r1[k].connections + rest);
        rooms[k].(connections := (rooms[k].connections + first) + rest);
        { assert (rooms[k].connections + first) + rest == rooms[k].connections + (first + rest); }
        rooms[k].(connections := rooms[k].connections + WiredInto(rooms.Keys, cs, k));
      }
    }
  }

  /** One wired connection: room `k` gains what `WiredBy` gives it. */
  lemma WireOne(rooms: map<string, Room>, c: ConnectionData, k: string)
    requires NamesAreKeys(rooms) && k in rooms
    ensures Wire(rooms, c).Keys == rooms.Keys && NamesAreKeys(Wire(rooms, c))
    ensures Wire(rooms, c)[k] == rooms[k].(connections := rooms[k].connections + WiredBy(rooms.Keys, c, k))
  {
  }

  /** A room entry keeps the world loaded. */
  lemma LoadRoomLoaded(st: LoadState, d: RoomData)
    requires |st.planets| > 0 && Loaded(st.planets, st.rooms)
    ensures Loaded(LoadRoom(st, d).planets, LoadRoom(st, d).rooms)
  {
    if d.name !in st.rooms {
      var r := LoadRoom(st, d);
      var last := |st.planets| - 1;
      var ps, rs := r.planets, r.rooms;
      var p := st.planets[last];
      assert d.name !in p.roomNames;
      assert ps == st.planets[last := p.(roomNames := p.roomNames + [d.name])];
      LoadRoomPlanets(st.planets, rs, st.rooms, d.name);
      forall k | k in rs ensures ConnectionsResolve(rs, k) {
        if k != d.name { assert ConnectionsResolve(st.rooms, k); }
      }
      assert NpcsAtHome(rs);
    }
  }

  /** The planet-side half of `LoadRoomLoaded`: a new room filed on the last planet. */
  lemma LoadRoomPlanets(planets: seq<Planet>, rs: map<string, Room>, rooms: map<string, Room>, n: string)
    requires |planets| > 0 && Loaded(planets, rooms) && n !in rooms
    requires var last := |planets| - 1;
      rs.Keys == rooms.Keys + {n} && (forall k :: k in rooms ==> rs[k] == rooms[k]) &&
      rs[n].name == n && rs[n].planet == planets[last].name
    ensures var last := |planets| - 1; var p := planets[last];
      var ps := planets[last := p.(roomNames := p.roomNames + [n])];
      WorldWf(ps, rs) && PlanetNamesUnique(ps) && PlanetNamesValid(ps) &&
      RoomsKnowTheirPlanet(ps, rs) && EveryRoomOnAPlanet(ps, rs)
  {
    var last := |planets| - 1;
    var p := planets[last];
    var ps := planets[last := p.(roomNames := p.roomNames + [n])];
    forall i, k | 0 <= i < |ps| && k in ps[i].roomNames
      ensures k in rs && rs[k].planet == ps[i].name
    {
      if i != last || k != n {
        assert k in planets[i].roomNames;
      }
    }
    forall k | k in rs ensures Listed(ps, k) {
      ListedAfterAdd(planets, n, k);
    }
  }

  /** Adding a room name to the last planet lists that name and keeps every other listing. */
  lemma ListedAfterAdd(planets: seq<Planet>, n: string, k: string)
    requires |planets| > 0
    ensures var last := |planets| - 1; var p := planets[last];
      Listed(planets[last := p.(roomNames := p.roomNames + [n])], k) <==> Listed(planets, k) || k == n
  {
    var last := |planets| - 1;
    var p := planets[last];
    var ps := planets[last := p.(roomNames := p.roomNames + [n])];
    if k == n {
      assert k in ps[last].roomNames;
    } else if Listed(planets, k) {
      var i :| 0 <= i < |planets| && k in planets[i].roomNames;
      assert k in ps[i].roomNames;
    }
  }


  lemma {:induction false} LoadRoomsLoaded(st: LoadState, ds: seq<RoomData>)
    requires |st.planets| > 0 && Loaded(st.planets, st.rooms)
    ensures Loaded(LoadRooms(st, ds).planets, LoadRooms(st, ds).rooms)
    decreases |ds|
  {
    if ds != [] {
      LoadRoomLoaded(st, ds[0]);
      LoadRoomsLoaded(LoadRoom(st, ds[0]), ds[1..]);
    }
  }

  lemma LoadPlanetLoaded(st: LoadState, d: PlanetData)
    requires Loaded(st.planets, st.rooms)
    ensures Loaded(LoadPlanet(st, d).planets, LoadPlanet(st, d).rooms)
  {
    if !HasPlanet(st.planets, d.name) && NewPlanet(d.name, d.picture).Some? {
      var p := NewPlanet(d.name, d.picture).value;
      var st1 := st.(planets := st.planets + [p]);
      assert IsValidName(p.name);
      forall k | k in st1.rooms ensures exists i :: 0 <= i < |st1.planets| && k in st1.planets[i].roomNames {
        var i :| 0 <= i < |st.planets| && k in st.planets[i].roomNames;
        assert st1.planets[i] == st.planets[i];
      }
      assert Loaded(st1.planets, st1.rooms);
      LoadRoomsLoaded(st1, d.rooms);
    }
  }

  lemma {:induction false} LoadPlanetsLoaded(st: LoadState, ds: seq<PlanetData>)
    requires Loaded(st.planets, st.rooms)
    ensures Loaded(LoadPlanets(st, ds).planets, LoadPlanets(st, ds).rooms)
    decreases |ds|
  {
    if ds != [] && !st.failed {
      LoadPlanetLoaded(st, ds[0]);
      LoadPlanetsLoaded(LoadPlanet(st, ds[0]), ds[1..]);
    }
  }

  lemma WireLoaded(planets: seq<Planet>, rooms: map<string, Room>, c: ConnectionData)
    requires Loaded(planets, rooms)
    ensures Loaded(planets, Wire(rooms, c))
  {
    if c.fromRoom in rooms && c.toRoom in rooms {
      var f := c.fromRoom;
      var r := rooms[f].AddConnection(Connection(f, c.toRoom, c.kind));
      assert ConnectionsResolve(rooms, f);
      SwapRoomKeepsLoaded(planets, rooms, f, r);
    }
  }

  /**
    A room of a loaded world replaced by one with the same name and planet,
    the same NPC or none, and connections that leave it towards existing
    rooms: the world stays loaded.
   */
  lemma SwapRoomKeepsLoaded(planets: seq<Planet>, rooms: map<string, Room>, k: string, r: Room)
    requires Loaded(planets, rooms) && k in rooms
    requires r.name == rooms[k].name && r.planet == rooms[k].planet
    requires r.npc == rooms[k].npc || r.npc == None
    requires forall c :: c in r.connections ==> c.fromRoom == k && c.toRoom in rooms
    ensures Loaded(planets, rooms[k := r])
  {
    var rs := rooms[k := r];
    assert rs.Keys == rooms.Keys;
    assert NamesAreKeys(rs) by {
      forall j | j in rs ensures rs[j].name == j {
        if j != k { assert rs[j] == rooms[j]; }
      }
    }
    assert RoomsKnowTheirPlanet(planets, rs) by {
      forall i, j | 0 <= i < |planets| && j in planets[i].roomNames ensures rs[j].planet == planets[i].name {
        assert rooms[j].planet == planets[i].name;
      }
    }
    assert EveryRoomOnAPlanet(planets, rs) by {
      forall j | j in rs ensures Listed(planets, j) {
        assert j in rooms;
      }
    }
    assert NpcsAtHome(rs) by {
      forall j | j in rs && rs[j].npc.Some? ensures rs[j].npc.value.room == j && !rs[j].npc.value.dead {
        assert rooms[j].npc.Some?;
      }
    }
    assert AllConnectionsResolve(rs) by {
      forall j | j in rs ensures ConnectionsResolve(rs, j) {
        if j != k { assert ConnectionsResolve(rooms, j); }
      }
    }
  }

  lemma {:induction false} WireAllLoaded(planets: seq<Planet>, rooms: map<string, Room>, cs: seq<ConnectionData>)
    requires Loaded(planets, rooms)
    ensures Loaded(planets, WireAll(rooms, cs))
    decreases |cs|
  {
    if cs != [] {
      WireLoaded(planets, rooms, cs[0]);
      WireAllLoaded(planets, Wire(rooms, cs[0]), cs[1..]);
    }
  }

  /**
    Loading into a well-formed world (the empty one, say) gives a
    well-formed world: unique valid planet names, every room filed under its
    name on exactly one planet, every connection leaving its room towards a
    room that exists, every NPC alive in its room.
   */
  lemma LoadKeepsLoaded(planets: seq<Planet>, rooms: map<string, Room>, world: WorldData)
    requires Loaded(planets, rooms)
    ensures !Load(planets, rooms, world).failed ==> Loaded(Load(planets, rooms, world).planets, Load(planets, rooms, world).rooms)
  {
    var st := LoadPlanets(LoadState(planets, rooms, [], false), world.planets);
    LoadPlanetsLoaded(LoadState(planets, rooms, [], false), world.planets);
    if !st.failed {
      WireAllLoaded(st.planets, st.rooms, st.pending);
      WireAllLoaded(st.planets, WireAll(st.rooms, st.pending), world.connections);
    }
  }

  /**
    Nothing a later planet entry does replaces what was loaded before it:
    earlier planets and rooms are kept as they are, so the first planet or
    room with a given name wins.
   */
  lemma {:induction false} LoadPlanetsKeepsEarlier(st: LoadState, ds: seq<PlanetData>)
    ensures var r := LoadPlanets(st, ds);
      st.planets <= r.planets && st.rooms.Keys <= r.rooms.Keys &&
      (forall k :: k in st.rooms ==> r.rooms[k] == st.rooms[k])
    decreases |ds|
  {
    if ds != [] && !st.failed {
      var d := ds[0];
      LoadPlanetsKeepsEarlier(LoadPlanet(st, d), ds[1..]);
    }
  }

  /** Loading the first `i` planet entries and then the rest is loading them all. */
  lemma {:induction false} LoadPlanetsSplit(st: LoadState, ds: seq<PlanetData>, i: nat)
    requires i <= |ds|
    ensures LoadPlanets(st, ds) == LoadPlanets(LoadPlanets(st, ds[..i]), ds[i..])
    decreases i
  {
    if i == 0 {
      assert ds[i..] == ds;
    } else if st.failed {
    } else {
      assert ds[..i][1..] == ds[1..][..i - 1];
      assert ds[1..][i - 1..] == ds[i..];
      LoadPlanetsSplit(LoadPlanet(st, ds[0]), ds[1..], i - 1);
    }
  }

  /** First occurrence wins: whatever the first `i` planet entries loaded survives the rest. */
  lemma FirstOccurrenceWins(st: LoadState, ds: seq<PlanetData>, i: nat)
    requires i <= |ds|
    ensures var early := LoadPlanets(st, ds[..i]);
      var r := LoadPlanets(st, ds);
      early.planets <= r.planets && early.rooms.Keys <= r.rooms.Keys &&
      (forall k :: k in early.rooms ==> r.rooms[k] == early.rooms[k])
  {
    LoadPlanetsSplit(st, ds, i);
    LoadPlanetsKeepsEarlier(LoadPlanets(st, ds[..i]), ds[i..]);
  }

  /**
    Starting from planets with valid names, the load fails exactly when some
    planet entry has an invalid name.
   */
  lemma {:induction false} LoadFailsIffInvalidName(st: LoadState, ds: seq<PlanetData>)
    requires !st.failed && PlanetNamesValid(st.planets)
    ensures LoadPlanets(st, ds).failed <==> exists i :: 0 <= i < |ds| && !IsValidName(ds[i].name)
    decreases |ds|
  {
    if ds != [] {
      var st1 := LoadPlanet(st, ds[0]);
      LoadPlanetFailsIffInvalid(st, ds[0]);
      if !st1.failed {
        LoadFailsIffInvalidName(st1, ds[1..]);
        assert forall i :: 0 <= i < |ds| - 1 ==> ds[1..][i] == ds[i + 1];
      }
    }
  }

  /** One planet entry fails exactly on an invalid name, and keeps the planet names valid. */
  lemma LoadPlanetFailsIffInvalid(st: LoadState, d: PlanetData)
    requires !st.failed && PlanetNamesValid(st.planets)
    ensures LoadPlanet(st, d).failed <==> !IsValidName(d.name)
    ensures PlanetNamesValid(LoadPlanet(st, d).planets)
  {
    var st1 := LoadPlanet(st, d);
    if HasPlanet(st.planets, d.name) {
      var j :| 0 <= j < |st.planets| && st.planets[j].name == d.name;
      assert IsValidName(st.planets[j].name);
    } else if IsValidName(d.name) {
      forall i | 0 <= i < |st1.planets| ensures IsValidName(st1.planets[i].name) {
        if i < |st.planets| { assert st1.planets[i] == st.planets[i]; }
      }
    }
  }

  /**
    The first entry of a planet's room list whose name is not filed yet is
    filed under that name as a fresh room of the planet being loaded, and
    that planet lists it.
   */
  lemma {:induction false} LoadRoomsFilesFirst(st: LoadState, ds: seq<RoomData>, i: nat)
    requires |st.planets| > 0 && i < |ds| && ds[i].name !in st.rooms
    requires forall j :: 0 <= j < i ==> ds[j].name != ds[i].name
    ensures var r := LoadRooms(st, ds); var last := |st.planets| - 1;
      r.rooms[ds[i].name] == NewRoom(ds[i], st.planets[last].name) && ds[i].name in r.planets[last].roomNames
    decreases |ds|
  {
    var st1 := LoadRoom(st, ds[0]);
    var last := |st.planets| - 1;
    if i == 0 {
      var r := LoadRooms(st1, ds[1..]);
      assert r == LoadRooms(st, ds);
      assert st1.rooms[ds[0].name] == NewRoom(ds[0], st.planets[last].name);
      assert ds[0].name in st1.planets[last].roomNames;
      assert st1.planets[last].roomNames <= r.planets[last].roomNames;
    } else {
      assert ds[1..][i - 1] == ds[i];
      LoadRoomsFilesFirst(st1, ds[1..], i - 1);
    }
  }

  /** The queued connections that leave room `k`, in order. */
  function Leaving(cs: seq<ConnectionData>, k: string): seq<ConnectionData>
    decreases |cs|
  {
    if cs == [] then [] else (if cs[0].fromRoom == k then [cs[0]] else []) + Leaving(cs[1..], k)
  }

  lemma {:induction false} LeavingAppend(a: seq<ConnectionData>, b: seq<ConnectionData>, k: string)
    ensures Leaving(a + b, k) == Leaving(a, k) + Leaving(b, k)
    decreases |a|
  {
    if a == [] {
      assert a + b == b;
    } else {
      var h := if a[0].fromRoom == k then [a[0]] else [];
      assert (a + b)[0] == a[0];
      calc {
        Leaving(a + b, k);
        h + Leaving((a + b)[1..], k);
        { assert (a + b)[1..] == a[1..] + b; }
        h + Leaving(a[1..] + b, k);
        { LeavingAppend(a[1..], b, k); }
        h + (Leaving(a[1..], k) + Leaving(b, k));
        (h + Leaving(a[1..], k)) + Leaving(b, k);
      }
    }
  }

  lemma {:induction false} LeavingNone(cs: seq<ConnectionData>, k: string)
    requires forall c :: c in cs ==> c.fromRoom != k
    ensures Leaving(cs, k) == []
    decreases |cs|
  {
    if cs != [] {
      assert cs[0] in cs;
      LeavingNone(cs[1..], k);
    }
  }

  lemma {:induction false} LeavingAll(cs: seq<ConnectionData>, k: string)
    requires forall c :: c in cs ==> c.fromRoom == k
    ensures Leaving(cs, k) == cs
    decreases |cs|
  {
    if cs != [] {
      assert cs[0] in cs;
      LeavingAll(cs[1..], k);
      assert cs == [cs[0]] + cs[1..];
    }
  }

  /** Only the queued connections that leave `k` give `k` anything. */
  lemma {:induction false} WiredIntoLeaving(keys: set<string>, cs: seq<ConnectionData>, k: string)
    ensures WiredInto(keys, cs, k) == WiredInto(keys, Leaving(cs, k), k)
    decreases |cs|
  {
    if cs != [] {
      var l := Leaving(cs, k);
      var rest := Leaving(cs[1..], k);
      WiredIntoLeaving(keys, cs[1..], k);
      if cs[0].fromRoom == k {
        assert l == [cs[0]] + rest;
        assert l[0] == cs[0] && l[1..] == rest;
      } else {
        assert l == [] + rest == rest;
        assert WiredBy(keys, cs[0], k) == [];
        assert WiredInto(keys, cs, k) == [] + WiredInto(keys, cs[1..], k);
      }
    }
  }

  /** Room `k` was built from room entry `d`, and the queue holds exactly `d`'s exits for it. */
  ghost predicate BuiltFrom(st: LoadState, k: string, d: RoomData)
    requires k in st.rooms
  {
    d.name == k && st.rooms[k] == NewRoom(d, st.rooms[k].planet) && Leaving(st.pending, k) == PendingExits(d)
  }

  /**
    What the first pass has queued, room by room: nothing leaves a room of
    the starting world `base`, and a room the pass filed holds the exits of
    the room entry of `doc` it was built from.
   */
  ghost predicate ExitsQueued(base: set<string>, doc: seq<PlanetData>, st: LoadState) {
    && base <= st.rooms.Keys
    && (forall c :: c in st.pending ==> c.fromRoom in st.rooms && c.fromRoom !in base)
    && (forall k :: k in st.rooms && k !in base ==>
          exists i, d :: 0 <= i < |doc| && d in doc[i].rooms && BuiltFrom(st, k, d))
  }

  lemma LoadRoomQueues(base: set<string>, doc: seq<PlanetData>, st: LoadState, d: RoomData, pi: nat)
    requires |st.planets| > 0 && ExitsQueued(base, doc, st)
    requires pi < |doc| && d in doc[pi].rooms
    ensures ExitsQueued(base, doc, LoadRoom(st, d))
  {
    if d.name !in st.rooms {
      var r := LoadRoom(st, d);
      var n := d.name;
      forall k | k in r.rooms && k !in base
        ensures exists i, e :: 0 <= i < |doc| && e in doc[i].rooms && BuiltFrom(r, k, e)
      {
        LeavingAppend(st.pending, PendingExits(d), k);
        if k == n {
          LeavingNone(st.pending, n);
          LeavingAll(PendingExits(d), n);
          assert BuiltFrom(r, k, d);
        } else {
          var i, e :| 0 <= i < |doc| && e in doc[i].rooms && BuiltFrom(st, k, e);
          LeavingNone(PendingExits(d), k);
          assert BuiltFrom(r, k, e);
        }
      }
    }
  }

  lemma {:induction false} LoadRoomsQueues(base: set<string>, doc: seq<PlanetData>, st: LoadState, ds: seq<RoomData>, pi: nat)
    requires |st.planets| > 0 && ExitsQueued(base, doc, st)
    requires pi < |doc| && forall j :: 0 <= j < |ds| ==> ds[j] in doc[pi].rooms
    ensures ExitsQueued(base, doc, LoadRooms(st, ds))
    decreases |ds|
  {
    if ds != [] {
      LoadRoomQueues(base, doc, st, ds[0], pi);
      assert forall j :: 0 <= j < |ds| - 1 ==> ds[1..][j] == ds[j + 1];
      LoadRoomsQueues(base, doc, LoadRoom(st, ds[0]), ds[1..], pi);
    }
  }

  /** The queue invariant speaks of the rooms and the queue only. */
  lemma ExitsQueuedFrame(base: set<string>, doc: seq<PlanetData>, st: LoadState, st1: LoadState)
    requires ExitsQueued(base, doc, st) && st1.rooms == st.rooms && st1.pending == st.pending
    ensures ExitsQueued(base, doc, st1)
  {
    forall k | k in st1.rooms && k !in base
      ensures exists i, d :: 0 <= i < |doc| && d in doc[i].rooms && BuiltFrom(st1, k, d)
    {
      var i, d :| 0 <= i < |doc| && d in doc[i].rooms && BuiltFrom(st, k, d);
      assert BuiltFrom(st1, k, d);
    }
  }

  lemma {:induction false} LoadPlanetsQueues(base: set<string>, doc: seq<PlanetData>, st: LoadState, ds: seq<PlanetData>)
    requires ExitsQueued(base, doc, st)
    requires forall j :: 0 <= j < |ds| ==> ds[j] in doc
    ensures ExitsQueued(base, doc, LoadPlanets(st, ds))
    decreases |ds|
  {
    if ds != [] && !st.failed {
      var d := ds[0];
      if !HasPlanet(st.planets, d.name) && NewPlanet(d.name, d.picture).Some? {
        var pi :| 0 <= pi < |doc| && doc[pi] == d;
        var st1 := st.(planets := st.planets + [NewPlanet(d.name, d.picture).value]);
        ExitsQueuedFrame(base, doc, st, st1);
        LoadRoomsQueues(base, doc, st1, d.rooms, pi);
      } else {
        ExitsQueuedFrame(base, doc, st, LoadPlanet(st, d));
      }
      assert forall j :: 0 <= j < |ds| - 1 ==> ds[1..][j] == ds[j + 1];
      LoadPlanetsQueues(base, doc, LoadPlanet(st, d), ds[1..]);
    }
  }

  /**
    Both wiring passes on room `k`: its own connections, then what the
    queue gives it (only the queued connections leaving it count), then what
    the world-level connections give it.
   */
  lemma WireTwice(rooms: map<string, Room>, pending: seq<ConnectionData>, conns: seq<ConnectionData>, k: string)
    requires NamesAreKeys(rooms) && k in rooms
    ensures var w := WireAll(WireAll(rooms, pending), conns);
      k in w && w[k] == rooms[k].(connections := rooms[k].connections +
        WiredInto(rooms.Keys, Leaving(pending, k), k) + WiredInto(rooms.Keys, conns, k))
  {
    var w1 := WireAll(rooms, pending);
    WireAllKeepsRooms(rooms, pending);
    WireAllAppends(rooms, pending, k);
    WireAllAppends(w1, conns, k);
    WiredIntoLeaving(rooms.Keys, pending, k);
  }

  /** The first pass keeps rooms filed under their names. */
  lemma LoadPlanetsNamesAreKeys(st: LoadState, ds: seq<PlanetData>)
    requires Loaded(st.planets, st.rooms)
    ensures NamesAreKeys(LoadPlanets(st, ds).rooms)
  {
    LoadPlanetsLoaded(st, ds);
  }

  /** After both wiring passes, a room of the starting world has gained only what `conns` gives it. */
  lemma WiredOldRoom(base: set<string>, doc: seq<PlanetData>, st: LoadState, conns: seq<ConnectionData>, k: string)
    requires NamesAreKeys(st.rooms) && ExitsQueued(base, doc, st) && k in base
    ensures var w := WireAll(WireAll(st.rooms, st.pending), conns);
      k in w && w[k] == st.rooms[k].(connections := st.rooms[k].connections + WiredInto(st.rooms.Keys, conns, k))
  {
    WireTwice(st.rooms, st.pending, conns, k);
    LeavingNone(st.pending, k);
    assert st.rooms[k].connections + [] == st.rooms[k].connections;
  }

  /**
    After both wiring passes, a room the first pass filed holds the exits of
    the room entry it was built from, then what `conns` gives it.
   */
  lemma WiredFiledRoom(base: set<string>, doc: seq<PlanetData>, st: LoadState, conns: seq<ConnectionData>, k: string)
    requires NamesAreKeys(st.rooms) && ExitsQueued(base, doc, st) && k in st.rooms && k !in base
    ensures var w := WireAll(WireAll(st.rooms, st.pending), conns);
      k in w &&
      exists i, d :: 0 <= i < |doc| && d in doc[i].rooms && d.name == k &&
        w[k] == NewRoom(d, w[k].planet).(connections :=
          WiredInto(st.rooms.Keys, PendingExits(d), k) + WiredInto(st.rooms.Keys, conns, k))
  {
    var w := WireAll(WireAll(st.rooms, st.pending), conns);
    WireTwice(st.rooms, st.pending, conns, k);
    var i, d :| 0 <= i < |doc| && d in doc[i].rooms && BuiltFrom(st, k, d);
    var exits := WiredInto(st.rooms.Keys, PendingExits(d), k);
    var none: seq<Connection> := [];
    assert st.rooms[k].connections == none;
    assert none + exits == exits;
    assert w[k] == NewRoom(d, w[k].planet).(connections := exits + WiredInto(st.rooms.Keys, conns, k));
  }

  /**
    After a load that does not fail, a room that was there before has only
    gained the world-level connections leaving it, and a room the load
    filed was built from a room entry of the document and holds that
    entry's declared exits (those whose target exists), followed by the
    world-level connections leaving it, each in declaration order.
   */
  lemma LoadWiresExits(planets: seq<Planet>, rooms: map<string, Room>, world: WorldData, k: string)
    requires Loaded(planets, rooms)
    ensures var r := Load(planets, rooms, world);
      !r.failed && k in rooms ==>
        k in r.rooms &&
        r.rooms[k] == rooms[k].(connections := rooms[k].connections + WiredInto(r.rooms.Keys, world.connections, k))
    ensures var r := Load(planets, rooms, world);
      !r.failed && k in r.rooms && k !in rooms ==>
        exists i, d :: 0 <= i < |world.planets| && d in world.planets[i].rooms && d.name == k &&
          r.rooms[k] == NewRoom(d, r.rooms[k].planet).(connections :=
            WiredInto(r.rooms.Keys, PendingExits(d), k) + WiredInto(r.rooms.Keys, world.connections, k))
  {
    var st0 := LoadState(planets, rooms, [], false);
    var st := LoadPlanets(st0, world.planets);
    LoadPlanetsQueues(rooms.Keys, world.planets, st0, world.planets);
    LoadPlanetsKeepsEarlier(st0, world.planets);
    LoadPlanetsNamesAreKeys(st0, world.planets);
    if !st.failed {
      WireAllKeepsRooms(st.rooms, st.pending);
      WireAllKeepsRooms(WireAll(st.rooms, st.pending), world.connections);
      if k in rooms {
        WiredOldRoom(rooms.Keys, world.planets, st, world.connections, k);
      } else if k in st.rooms {
        WiredFiledRoom(rooms.Keys, world.planets, st, world.connections, k);
      }
    }
  }

  // ---------------------------------------------------------------------
  // Room lookup
  // ---------------------------------------------------------------------

  function FindInPlanet(keys: seq<string>, rooms: map<string, Room>, name: string): Option<Room>
    requires forall k :: k in keys ==> k in rooms
    decreases |keys|
  {
    if keys == [] then None
    else if rooms[keys[0]].name == name then Some(rooms[keys[0]])
    else FindInPlanet(keys[1..], rooms, name)
  }

  /** `find_room_by_name` as a value: planets in order, each planet's rooms in order. */
  function FindRoom(planets: seq<Planet>, rooms: map<string, Room>, name: string): Option<Room>
    requires PlanetRoomsKnown(planets, rooms)
    decreases |planets|
  {
    if planets == [] then None
    else match FindInPlanet(planets[0].roomNames, rooms, name)
      case Some(r) => Some(r)
      case None => FindRoom(planets[1..], rooms, name)
  }

  lemma {:induction false} FindInPlanetSpec(keys: seq<string>, rooms: map<string, Room>, name: string)
    requires NamesAreKeys(rooms) && forall k :: k in keys ==> k in rooms
    ensures FindInPlanet(keys, rooms, name).Some? <==> name in keys
    ensures FindInPlanet(keys, rooms, name).Some? ==> FindInPlanet(keys, rooms, name).value == rooms[name]
    decreases |keys|
  {
    if keys != [] {
      FindInPlanetSpec(keys[1..], rooms, name);
      assert keys == [keys[0]] + keys[1..];
    }
  }

  /**
    The lookup finds a room exactly when some planet lists the name, and then
    it is the room filed under that very name.
   */
  lemma {:induction false} FindRoomSpec(planets: seq<Planet>, rooms: map<string, Room>, name: string)
    requires WorldWf(planets, rooms)
    ensures FindRoom(planets, rooms, name).Some? <==> Listed(planets, name)
    ensures FindRoom(planets, rooms, name).Some? ==>
      name in rooms && FindRoom(planets, rooms, name).value == rooms[name] && rooms[name].name == name
    decreases |planets|
  {
    if planets != [] {
      FindInPlanetSpec(planets[0].roomNames, rooms, name);
      FindRoomSpec(planets[1..], rooms, name);
      assert forall i :: 0 <= i < |planets| - 1 ==> planets[1..][i] == planets[i + 1];
      if name in planets[0].roomNames { assert name in rooms; }
    }
  }

  /** `next(planet for planet in planets if name in planet.rooms)`: the first planet listing the room. */
  function PlanetContaining(planets: seq<Planet>, name: string): (p: Planet)
    requires exists i :: 0 <= i < |planets| && name in planets[i].roomNames
    ensures name in p.roomNames
    ensures exists i :: 0 <= i < |planets| && planets[i] == p && forall j :: 0 <= j < i ==> name !in planets[j].roomNames
    decreases |planets|
  {
    if name in planets[0].roomNames then planets[0]
    else
      var i :| 0 <= i < |planets| && name in planets[i].roomNames;
      assert name in planets[1..][i - 1].roomNames;
      var p := PlanetContaining(planets[1..], name);
      assert forall j :: 0 <= j < |planets| - 1 ==> planets[1..][j] == planets[j + 1];
      p
  }

  /** The planet with the given name, if any (`planets[name]`). */
  function PlanetNamed(planets: seq<Planet>, name: string): (p: Option<Planet>)
    ensures p.Some? <==> HasPlanet(planets, name)
    ensures p.Some? ==> p.value.name == name && p.value in planets
    decreases |planets|
  {
    if planets == [] then None
    else if planets[0].name == name then Some(planets[0])
    else
      var p := PlanetNamed(planets[1..], name);
      assert forall j :: 0 <= j < |planets| - 1 ==> planets[1..][j] == planets[j + 1];
      p
  }

  // ---------------------------------------------------------------------
  // Objectives and requirements
  // ---------------------------------------------------------------------

  predicate NoDuplicates(log: seq<string>) {
    forall i, j :: 0 <= i < j < |log| ==> log[i] != log[j]
  }

  /**
    `update_current_objective`: a room's objective is appended when it is
    set, not empty and not logged yet.  The log only grows, by at most one
    entry, and never gains a duplicate.
   */
  function AppendObjective(log: seq<string>, objective: Option<string>): (r: seq<string>)
    ensures log <= r && |r| <= |log| + 1
    ensures |r| == |log| + 1 <==> objective.Some? && objective.value != "" && objective.value !in log
    ensures |r| == |log| + 1 ==> r[|log|] == objective.value
    ensures NoDuplicates(log) ==> NoDuplicates(r)
  {
    if objective.Some? && objective.value != "" && objective.value !in log then log + [objective.value] else log
  }

  /** The required items the inventory lacks, in the order they are listed. */
  function MissingItems(requirement: seq<string>, inventory: set<string>): (missing: seq<string>)
    ensures forall x :: x in missing <==> x in requirement && x !in inventory
    ensures |missing| <= |requirement|
    decreases |requirement|
  {
    if requirement == [] then []
    else
      var rest := MissingItems(requirement[1..], inventory);
      assert forall x :: x in requirement <==> x == requirement[0] || x in requirement[1..];
      if requirement[0] in inventory then rest else [requirement[0]] + rest
  }

  /** `check_room_requirements`: every required item is held. */
  function RequirementsMet(requirement: seq<string>, inventory: set<string>): (met: bool)
    ensures met <==> forall x :: x in requirement ==> x in inventory
    ensures !met ==> |requirement| > 0
  {
    var missing := MissingItems(requirement, inventory);
    assert missing != [] ==> missing[0] in missing;
    missing == []
  }

  /** What `plant_c4` and `drop_grenade` report. */
  datatype ScriptOutcome = NotInScriptedRoom | ItemMissing | Done

  /**
    The game: planets in load order, the room arena, the outro lines of the
    story, the objective log and the player once there is one.
   */
  class Game {
    var planets: seq<Planet>
    var rooms: map<string, Room>
    const outro: seq<string>
    var currentObjective: seq<string>
    var player: Player?

    ghost predicate Valid()
      reads this
    {
      WorldWf(planets, rooms) && |currentObjective| > 0 && NoDuplicates(currentObjective)
    }

    /** `Game()` followed by the story load, which supplies the outro lines. */
    constructor (outro: seq<string>)
      ensures Valid()
      ensures planets == [] && rooms == map[] && this.outro == outro
      ensures currentObjective == [InitialObjective] && player == null
    {
      planets := [];
      rooms := map[];
      this.outro := outro;
      currentObjective := [InitialObjective];
      player := null;
    }

    /**
      `create_game` on a parsed world document.  On a raise (`ok` false) the
      planets and rooms loaded so far stay and nothing is wired.
     */
    method CreateGame(world: WorldData) returns (ok: bool)
      modifies this`planets, this`rooms
      ensures var st := Load(old(planets), old(rooms), world);
        planets == st.planets && rooms == st.rooms && ok == !st.failed
      ensures ok && old(Valid() && Loaded(planets, rooms)) ==> Valid() && Loaded(planets, rooms)
    {
      ghost var st0 := LoadState(planets, rooms, [], false);
      ghost var planets0, rooms0 := planets, rooms;
      var pending: seq<ConnectionData> := [];
      var ds := world.planets;
      var i := 0;
      while i < |ds|
        invariant 0 <= i <= |ds|
        invariant LoadPlanets(LoadState(planets, rooms, pending, false), ds[i..]) == LoadPlanets(st0, ds)
      {
        assert ds[i..] == [ds[i]] + ds[i + 1..];
        ok, pending := LoadPlanetEntry(ds[i], pending);
        if !ok {
          return false;
        }
        i := i + 1;
      }
      WireConnections(pending);
      WireConnections(world.connections);
      if Loaded(planets0, rooms0) {
        LoadKeepsLoaded(planets0, rooms0, world);
      }
      return true;
    }

    /**
      One planet entry of the first pass.  A planet name already loaded is
      skipped; an invalid new name raises (`ok` false) before anything is filed.
     */
    method LoadPlanetEntry(pd: PlanetData, pending: seq<ConnectionData>) returns (ok: bool, pending': seq<ConnectionData>)
      modifies this`planets, this`rooms
      ensures LoadState(planets, rooms, pending', !ok) == LoadPlanet(LoadState(old(planets), old(rooms), pending, false), pd)
    {
      pending' := pending;
      if HasPlanet(planets, pd.name) {
        return true, pending';
      }
      if !IsValidName(pd.name) {
        return false, pending';
      }
      // The source files the planet before loading its rooms; it is the
      // same object, so filing it afterwards gives the same planets.
      var planet := Planet(pd.name, pd.picture, []);
      ghost var stP := LoadState(planets + [planet], rooms, pending, false);
      var j := 0;
      while j < |pd.rooms|
        invariant 0 <= j <= |pd.rooms|
        invariant planet.name == pd.name
        invariant LoadRooms(LoadState(planets + [planet], rooms, pending', false), pd.rooms[j..]) == LoadRooms(stP, pd.rooms)
      {
        assert pd.rooms[j..] == [pd.rooms[j]] + pd.rooms[j + 1..];
        planet, pending' := LoadRoomEntry(planet, pd.rooms[j], pending');
        j := j + 1;
      }
      planets := planets + [planet];
      return true, pending';
    }

    /**
      One room entry of the first pass, filed on `planet`: a room name taken
      anywhere in the world is skipped; otherwise the room (with its NPC) is
      filed and its exits are queued for the second pass.
     */
    method LoadRoomEntry(planet: Planet, rd: RoomData, pending: seq<ConnectionData>) returns (planet': Planet, pending': seq<ConnectionData>)
      modifies this`rooms
      ensures planet'.name == planet.name
      ensures LoadState(planets + [planet'], rooms, pending', false) == LoadRoom(LoadState(planets + [planet], old(rooms), pending, false), rd)
    {
      planet', pending' := planet, pending;
      if rd.name in rooms {
        return;
      }
      var npc: Option<Npc> := None;
      if rd.npc.Some? {
        npc := Some(NewNpc(rd.npc.value, rd.name));
      }
      var room := Room(rd.name, rd.description, planet.name, [], rd.items, rd.requirement, rd.objective, npc, rd.picture);
      rooms := rooms[rd.name := room];
      planet' := planet.AddRoom(rd.name);
      var e := 0;
      while e < |rd.exits|
        invariant 0 <= e <= |rd.exits|
        invariant pending' == pending + PendingExits(rd)[..e]
      {
        pending' := pending' + [ConnectionData(rd.name, rd.exits[e].toRoom, rd.exits[e].kind)];
        e := e + 1;
      }
      assert PendingExits(rd)[..e] == PendingExits(rd);
      assert planets + [planet'] == (planets + [planet])[|planets| := planet.AddRoom(rd.name)];
    }

    /**
      The second pass of `create_game`, run on the queued room exits and then
      on the world-level connections: each is appended to its source room
      when both endpoints exist.
     */
    method WireConnections(cs: seq<ConnectionData>)
      modifies this`rooms
      ensures rooms == WireAll(old(rooms), cs)
    {
      var k := 0;
      while k < |cs|
        invariant 0 <= k <= |cs|
        invariant WireAll(rooms, cs[k..]) == WireAll(old(rooms), cs)
      {
        var c := cs[k];
        assert cs[k..] == [c] + cs[k + 1..];
        if c.fromRoom in rooms && c.toRoom in rooms {
          rooms := rooms[c.fromRoom := rooms[c.fromRoom].AddConnection(Connection(c.fromRoom, rooms[c.toRoom].name, c.kind))];
        }
        k := k + 1;
      }
    }

    /** `find_room_by_name`: a scan over the planets and their rooms, in order. */
    method FindRoomByName(roomName: string) returns (found: Option<Room>)
      requires Valid()
      ensures found == FindRoom(planets, rooms, roomName)
      ensures found.Some? <==> Listed(planets, roomName)
      ensures found.Some? ==> roomName in rooms && found.value == rooms[roomName] && found.value.name == roomName
    {
      FindRoomSpec(planets, rooms, roomName);
      var i := 0;
      while i < |planets|
        invariant 0 <= i <= |planets|
        invariant FindRoom(planets[i..], rooms, roomName) == FindRoom(planets, rooms, roomName)
      {
        var keys := planets[i].roomNames;
        var j := 0;
        while j < |keys|
          invariant 0 <= j <= |keys|
          invariant FindInPlanet(keys[j..], rooms, roomName) == FindInPlanet(keys, rooms, roomName)
        {
          if rooms[keys[j]].name == roomName {
            return Some(rooms[keys[j]]);
          }
          assert keys[j..][1..] == keys[j + 1..];
          j := j + 1;
        }
        assert planets[i..][1..] == planets[i + 1..];
        i := i + 1;
      }
      return None;
    }

    /** `update_current_objective` for the room just entered. */
    method UpdateCurrentObjective(room: Room)
      requires Valid()
      modifies this`currentObjective
      ensures Valid()
      ensures currentObjective == AppendObjective(old(currentObjective), room.objective)
    {
      if room.objective.Some? && room.objective.value != "" && room.objective.value !in currentObjective {
        currentObjective := currentObjective + [room.objective.value];
      }
    }

    /** `check_room_requirements`: the player holds every item the room requires. */
    function CheckRoomRequirements(nextRoom: Room): (ok: bool)
      requires player != null
      reads this, player
      ensures ok <==> forall x :: x in nextRoom.requirement ==> x in player.inventory
    {
      RequirementsMet(nextRoom.requirement, player.inventory)
    }

    /**
      `kill_player`: the player is moved to "Ascend"; the current planet is
      left as it was.  Without an "Ascend" room the source's lookup raises
      (`ok` false) and nothing changes.
     */
    method KillPlayer() returns (ok: bool)
      requires player != null
      modifies player`currentRoom
      ensures ok <==> "Ascend" in rooms
      ensures player.currentRoom == if ok then Some("Ascend") else old(player.currentRoom)
    {
      if "Ascend" !in rooms {
        return false;
      }
      player.currentRoom := Some("Ascend");
      return true;
    }

    /**
      `plant_c4`: only in the room found as "Reactor" (the current room must
      be that very room, so its name is "Reactor" exactly) and only with "C4"
      held; then "C4" is used up and the room's requirements are cleared.
     */
    method PlantC4() returns (r: ScriptOutcome)
      requires Valid() && player != null
      modifies this`rooms, player`inventory
      ensures Valid()
      ensures r.NotInScriptedRoom? <==> !(Listed(planets, "Reactor") && player.currentRoom == Some("Reactor"))
      ensures r.ItemMissing? <==> !r.NotInScriptedRoom? && "C4" !in old(player.inventory)
      ensures r.Done? ==> "Reactor" in old(rooms) && rooms == old(rooms)["Reactor" := old(rooms)["Reactor"].RemoveRequirements()]
      ensures r.Done? ==> player.inventory == old(player.inventory) - {"C4"}
      ensures !r.Done? ==> rooms == old(rooms) && player.inventory == old(player.inventory)
    {
      var reactor := FindRoomByName("Reactor");
      if !(reactor.Some? && player.currentRoom == Some("Reactor")) {
        return NotInScriptedRoom;
      }
      if "C4" !in player.inventory {
        return ItemMissing;
      }
      player.inventory := player.inventory - {"C4"};
      rooms := rooms["Reactor" := rooms["Reactor"].RemoveRequirements()];
      return Done;
    }

    /**
      `drop_grenade`: only in the room found as "Shield Generator" and only
      with "Grenade" held; then the grenade is used up and nothing else changes.
     */
    method DropGrenade() returns (r: ScriptOutcome)
      requires Valid() && player != null
      modifies player`inventory
      ensures r.NotInScriptedRoom? <==> !(Listed(planets, "Shield Generator") && player.currentRoom == Some("Shield Generator"))
      ensures r.ItemMissing? <==> !r.NotInScriptedRoom? && "Grenade" !in old(player.inventory)
      ensures player.inventory == if r.Done? then old(player.inventory) - {"Grenade"} else old(player.inventory)
    {
      var shield := FindRoomByName("Shield Generator");
      if !(shield.Some? && player.currentRoom == Some("Shield Generator")) {
        return NotInScriptedRoom;
      }
      if "Grenade" !in player.inventory {
        return ItemMissing;
      }
      player.inventory := player.inventory - {"Grenade"};
      return Done;
    }
  }
}
