/** Assembly of the building group and collection of its named rooms
    (`createBuilding`, `createRoom`, `createHallway` and the `traverse`
    that fills `rooms` in main.js). */
module Building {
  import opened Layout

  /** A room as the locator sees it: `userData.roomName` and `userData.bounds`. */
  datatype Room = Room(name: string, bounds: Bounds)

  /** A direct child of the building group. Meshes inside a room or hallway
      group carry no room name, so only these nodes matter to the lookup. */
  datatype Node =
    | Ground(width: real, depth: real)
    | RoomGroup(name: string, x: real, z: real, walls: seq<Wall>, bounds: Bounds)
    | HallwayGroup(x: real, z: real, width: real, depth: real)

  /** The scene-graph group of the building; `Add` appends a child. */
  class Group {
    var children: seq<Node>

    constructor ()
      ensures children == []
    {
      children := [];
    }

    method Add(n: Node)
      modifies this
      ensures children == old(children) + [n]
    {
      children := children + [n];
    }
  }

  /** The room a child contributes to `rooms`: a room group whose name is a
      non-empty string (the program tests the name for truthiness). */
  function RoomOf(n: Node): seq<Room>
  {
    if n.RoomGroup? && n.name != "" then [Room(n.name, n.bounds)] else []
  }

  /** The named rooms among `children`, in child order. */
  function NamedRooms(children: seq<Node>): seq<Room>
  {
    if children == [] then []
    else NamedRooms(children[..|children| - 1]) + RoomOf(children[|children| - 1])
  }

  /** Collection distributes over concatenation of child lists. */
  lemma {:induction false} NamedRoomsAppend(a: seq<Node>, b: seq<Node>)
    ensures NamedRooms(a + b) == NamedRooms(a) + NamedRooms(b)
    decreases |b|
  {
    if b == [] {
      assert a + b == a;
    } else {
      var last := |b| - 1;
      assert (a + b)[..|a + b| - 1] == a + b[..last];
      NamedRoomsAppend(a, b[..last]);
    }
  }

  /** Children none of which is a room group contribute no rooms. */
  lemma {:induction false} UnnamedChildren(cs: seq<Node>)
    requires forall i :: 0 <= i < |cs| ==> !cs[i].RoomGroup?
    ensures NamedRooms(cs) == []
    decreases |cs|
  {
    if cs != [] {
      UnnamedChildren(cs[..|cs| - 1]);
    }
  }

  /** Appending one child adds exactly what that child contributes. */
  lemma NamedRoomsPush(s: seq<Node>, n: Node)
    ensures NamedRooms(s + [n]) == NamedRooms(s) + RoomOf(n)
  {
    assert (s + [n])[..|s|] == s;
  }

  /** `createRoom`: builds the four walls one after another (the `forEach`
      over the wall placements, with the box choice as written), records the
      bounds and adds the room group. */
  method CreateRoom(g: Group, x: real, z: real, width: real, depth: real, height: real, name: string)
    modifies g
    ensures g.children == old(g.children) + [RoomGroup(name, x, z, AsWrittenWalls(width, depth, height), RoomBounds(x, z, width, depth))]
  {
    var positions := WallPositions(width, depth);
    var walls: seq<Wall> := [];
    for i := 0 to |positions|
      invariant walls == AsWrittenWalls(width, depth, height)[..i]
    {
      walls := walls + [WallAt(positions[i], AsWrittenWallBox(positions[i], width, depth, height), height)];
    }
    assert walls == AsWrittenWalls(width, depth, height);
    g.Add(RoomGroup(name, x, z, walls, RoomBounds(x, z, width, depth)));
  }

  /** `createHallway`: adds an unnamed group with no bounds record. */
  method CreateHallway(g: Group, x: real, z: real, width: real, depth: real, height: real)
    modifies g
    ensures g.children == old(g.children) + [HallwayGroup(x, z, width, depth)]
  {
    g.Add(HallwayGroup(x, z, width, depth));
  }

  /** The five rooms of the default building in assembly order, with their
      bounds written out as numbers. */
  function DefaultRooms(): seq<Room>
  {
    [ Room("Lobby", Bounds(-5.0, 5.0, -5.0, 5.0)),
      Room("Office 1", Bounds(7.0, 17.0, -5.0, 5.0)),
      Room("Office 2", Bounds(-17.0, -7.0, -5.0, 5.0)),
      Room("Conference Room", Bounds(-5.0, 5.0, 7.0, 17.0)),
      Room("Kitchen", Bounds(-5.0, 5.0, -17.0, -7.0)) ]
  }

  /** A default-sized room group as `createRoom` builds it at (x, z). */
  function RoomNode(name: string, x: real, z: real): Node
  {
    RoomGroup(name, x, z, AsWrittenWalls(RoomWidth, RoomDepth, RoomHeight), RoomBounds(x, z, RoomWidth, RoomDepth))
  }

  /** The four hallways exactly as the program places them: centred at
      room size from the origin, which is inside the outer rooms. */
  function AsWrittenHallways(): seq<Node>
  {
    [ HallwayGroup(RoomWidth, 0.0, 2.0, RoomDepth),
      HallwayGroup(-RoomWidth, 0.0, 2.0, RoomDepth),
      HallwayGroup(0.0, RoomDepth, RoomWidth, 2.0),
      HallwayGroup(0.0, -RoomDepth, RoomWidth, 2.0) ]
  }

  /** The four hallways centred in the 2-unit gap between the lobby and the
      room each one leads to (right, left, front, back, as for the rooms):
      a corrected placement, not used by `CreateBuilding`. */
  function Hallways(): seq<Node>
  {
    [ HallwayGroup(RoomWidth / 2.0 + 1.0, 0.0, 2.0, RoomDepth),
      HallwayGroup(-(RoomWidth / 2.0 + 1.0), 0.0, 2.0, RoomDepth),
      HallwayGroup(0.0, RoomDepth / 2.0 + 1.0, RoomWidth, 2.0),
      HallwayGroup(0.0, -(RoomDepth / 2.0 + 1.0), RoomWidth, 2.0) ]
  }

  /** The ground rectangle a hallway's floor covers. */
  function HallwayArea(h: Node): (b: Bounds)
    requires h.HallwayGroup?
    ensures b.maxX - b.minX == h.width && b.maxZ - b.minZ == h.depth
    ensures b.minX + b.maxX == 2.0 * h.x && b.minZ + b.maxZ == 2.0 * h.z
  {
    RoomBounds(h.x, h.z, h.width, h.depth)
  }

  /** The children of the default building in the order they are added. */
  function BuildingChildren(): seq<Node>
  {
    [ Ground(50.0, 50.0),
      RoomNode("Lobby", 0.0, 0.0),
      RoomNode("Office 1", RoomWidth + 2.0, 0.0),
      RoomNode("Office 2", -(RoomWidth + 2.0), 0.0),
      RoomNode("Conference Room", 0.0, RoomDepth + 2.0),
      RoomNode("Kitchen", 0.0, -(RoomDepth + 2.0)),
      AsWrittenHallways()[0], AsWrittenHallways()[1], AsWrittenHallways()[2], AsWrittenHallways()[3] ]
  }

  /** Each room group of the default building contributes the matching
      default room. */
  lemma RoomNodesMatchDefaults()
    ensures forall k :: 1 <= k < 6 ==> RoomOf(BuildingChildren()[k]) == [DefaultRooms()[k - 1]]
  {
    DefaultRoomsLayout();
  }

  /** Children each of which contributes exactly one room contribute
      those rooms, in order. */
  lemma {:induction false} NamedRoomsOfRoomChildren(cs: seq<Node>, rs: seq<Room>)
    requires |cs| == |rs|
    requires forall k :: 0 <= k < |cs| ==> RoomOf(cs[k]) == [rs[k]]
    ensures NamedRooms(cs) == rs
    decreases |cs|
  {
    if cs != [] {
      var n := |cs| - 1;
      NamedRoomsOfRoomChildren(cs[..n], rs[..n]);
      assert rs[..n] + [rs[n]] == rs;
    }
  }

  /** A child list laid out as ground plane, five rooms, four unnamed
      children contributes exactly the five default rooms. */
  lemma {:induction false} NamedRoomsOfLayout(cs: seq<Node>)
    requires |cs| == 10 && !cs[0].RoomGroup?
    requires forall k :: 1 <= k < 6 ==> RoomOf(cs[k]) == [DefaultRooms()[k - 1]]
    requires forall k :: 6 <= k < 10 ==> !cs[k].RoomGroup?
    ensures NamedRooms(cs) == DefaultRooms()
  {
    var ground, rooms, halls := cs[..1], cs[1..6], cs[6..];
    assert cs == ground + rooms + halls;
    assert NamedRooms(ground) == [] by {
      UnnamedChildren(ground);
    }
    assert NamedRooms(rooms) == DefaultRooms() by {
      assert forall k :: 0 <= k < 5 ==> rooms[k] == cs[k + 1];
      NamedRoomsOfRoomChildren(rooms, DefaultRooms());
    }
    assert NamedRooms(halls) == [] by {
      assert forall k :: 0 <= k < 4 ==> halls[k] == cs[k + 6];
      UnnamedChildren(halls);
    }
    NamedRoomsAppend(ground, rooms);
    NamedRoomsAppend(ground + rooms, halls);
  }

  /** The default building holds the ground plane, five room groups and
      four hallway groups at room size from the origin along each axis,
      and its named rooms, in order, are the five
      default rooms. */
  lemma BuildingChildrenRooms()
    ensures var cs := BuildingChildren();
      && |cs| == 10 && cs[0] == Ground(50.0, 50.0)
      && cs[1].RoomGroup? && cs[2].RoomGroup? && cs[3].RoomGroup? && cs[4].RoomGroup? && cs[5].RoomGroup?
      && cs[6..] == AsWrittenHallways()
      && cs[6].x == RoomWidth && cs[6].z == 0.0 && cs[7].x == -RoomWidth && cs[7].z == 0.0
      && cs[8].x == 0.0 && cs[8].z == RoomDepth && cs[9].x == 0.0 && cs[9].z == -RoomDepth
      && NamedRooms(cs) == DefaultRooms()
  {
    var cs := BuildingChildren();
    RoomNodesMatchDefaults();
    assert forall k :: 6 <= k < 10 ==> !cs[k].RoomGroup? by {
      assert cs[6..] == AsWrittenHallways();
    }
    NamedRoomsOfLayout(cs);
  }

  /** `createBuilding`: the ground plane, five rooms at offsets of room size
      plus 2 and four hallways at room size from the origin
      (`AsWrittenHallways`). */
  method CreateBuilding() returns (g: Group)
    ensures fresh(g)
    ensures g.children == BuildingChildren()
    ensures NamedRooms(g.children) == DefaultRooms()
  {
    g := new Group();
    g.Add(Ground(50.0, 50.0));
    CreateRoom(g, 0.0, 0.0, RoomWidth, RoomDepth, RoomHeight, "Lobby");
    CreateRoom(g, RoomWidth + 2.0, 0.0, RoomWidth, RoomDepth, RoomHeight, "Office 1");
    CreateRoom(g, -(RoomWidth + 2.0), 0.0, RoomWidth, RoomDepth, RoomHeight, "Office 2");
    CreateRoom(g, 0.0, RoomDepth + 2.0, RoomWidth, RoomDepth, RoomHeight, "Conference Room");
    CreateRoom(g, 0.0, -(RoomDepth + 2.0), RoomWidth, RoomDepth, RoomHeight, "Kitchen");
    CreateHallway(g, RoomWidth, 0.0, 2.0, RoomDepth, RoomHeight);
    CreateHallway(g, -RoomWidth, 0.0, 2.0, RoomDepth, RoomHeight);
    CreateHallway(g, 0.0, RoomDepth, RoomWidth, 2.0, RoomHeight);
    CreateHallway(g, 0.0, -RoomDepth, RoomWidth, 2.0, RoomHeight);
    BuildingChildrenRooms();
  }

  /** The `traverse` that pushes every child with a room name onto `rooms`. */
  method CollectRooms(g: Group) returns (rooms: seq<Room>)
    ensures rooms == NamedRooms(g.children)
  {
    rooms := [];
    var i := 0;
    while i < |g.children|
      invariant 0 <= i <= |g.children|
      invariant rooms == NamedRooms(g.children[..i])
    {
      var child := g.children[i];
      NamedRoomsPush(g.children[..i], child);
      assert g.children[..i] + [child] == g.children[..i + 1];
      if child.RoomGroup? && child.name != "" {
        rooms := rooms + [Room(child.name, child.bounds)];
      }
      i := i + 1;
    }
    assert g.children[..i] == g.children;
  }

  /** Start-up: build the building, then collect its rooms. */
  method Startup() returns (building: Group, rooms: seq<Room>)
    ensures fresh(building)
    ensures rooms == DefaultRooms()
  {
    building := CreateBuilding();
    rooms := CollectRooms(building);
  }

  /** The default room list: five rooms in the order Lobby, Office 1,
      Office 2, Conference Room, Kitchen, each as wide and as deep as the
      room constants and centred on its offset; the lobby is
      {-5, 5, -5, 5}. */
  lemma DefaultRoomsLayout()
    ensures var rs := DefaultRooms();
      && |rs| == 5
      && rs[0].name == "Lobby" && rs[1].name == "Office 1" && rs[2].name == "Office 2"
      && rs[3].name == "Conference Room" && rs[4].name == "Kitchen"
      && rs[0].bounds == Bounds(-5.0, 5.0, -5.0, 5.0)
      && rs[0].bounds == RoomBounds(0.0, 0.0, RoomWidth, RoomDepth)
      && rs[1].bounds == RoomBounds(RoomWidth + 2.0, 0.0, RoomWidth, RoomDepth)
      && rs[2].bounds == RoomBounds(-(RoomWidth + 2.0), 0.0, RoomWidth, RoomDepth)
      && rs[3].bounds == RoomBounds(0.0, RoomDepth + 2.0, RoomWidth, RoomDepth)
      && rs[4].bounds == RoomBounds(0.0, -(RoomDepth + 2.0), RoomWidth, RoomDepth)
  {
  }
}
