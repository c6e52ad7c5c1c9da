/** Room dimensions, room bounds and the boxes of a room's four walls
    (the constants and `createRoom` of main.js). Coordinates are `real`,
    an abstraction of the JavaScript doubles the program computes with. */
module Layout {

  const RoomWidth: real := 10.0
  const RoomDepth: real := 10.0
  const RoomHeight: real := 3.0
  const WallThickness: real := 0.2

  /** `Math.PI / 2` as the double the program computes: the quarter turn
      given to side walls and the pitch limit of mouse-look. */
  const HalfPi: real := 1.5707963267948966

  /** An axis-aligned rectangle on the ground plane (`room.userData.bounds`). */
  datatype Bounds = Bounds(minX: real, maxX: real, minZ: real, maxZ: real)

  /** The point (x, z) lies in `b`, boundaries included. */
  predicate Contains(b: Bounds, x: real, z: real)
  {
    x >= b.minX && x <= b.maxX && z >= b.minZ && z <= b.maxZ
  }

  /** World-space bounds of a room of the given size placed with its centre
      at (x, z): the origin plus or minus the half-extent on each axis. The
      contract pins the rectangle down by its size and its centre. */
  function RoomBounds(x: real, z: real, width: real, depth: real): (b: Bounds)
    ensures b.maxX - b.minX == width && b.maxZ - b.minZ == depth
    ensures b.minX + b.maxX == 2.0 * x && b.minZ + b.maxZ == 2.0 * z
  {
    Bounds(x - width / 2.0, x + width / 2.0, z - depth / 2.0, z + depth / 2.0)
  }

  /** Where a wall stands in room-local coordinates; `rot` is its rotation
      about the vertical axis, either 0 or a quarter turn. */
  datatype WallPosition = WallPosition(x: real, z: real, rot: real)

  /** Size of a box along its own x, y and z axes (`BoxGeometry`). */
  datatype Box = Box(sizeX: real, sizeY: real, sizeZ: real)

  /** A wall mesh: its box, its room-local position and its rotation about y. */
  datatype Wall = Wall(box: Box, x: real, y: real, z: real, rotY: real)

  /** The four wall placements, front, back, right and left, in that order. */
  function WallPositions(width: real, depth: real): (ps: seq<WallPosition>)
    ensures |ps| == 4
    ensures forall i :: 0 <= i < |ps| ==> ps[i].rot == 0.0 || ps[i].rot == HalfPi
    ensures ps[0].x == 0.0 && ps[0].z == depth / 2.0 && ps[0].rot == 0.0
    ensures ps[1].x == 0.0 && ps[1].z == -depth / 2.0 && ps[1].rot == 0.0
    ensures ps[2].x == width / 2.0 && ps[2].z == 0.0 && ps[2].rot == HalfPi
    ensures ps[3].x == -width / 2.0 && ps[3].z == 0.0 && ps[3].rot == HalfPi
  {
    [ WallPosition(0.0, depth / 2.0, 0.0),
      WallPosition(0.0, -depth / 2.0, 0.0),
      WallPosition(width / 2.0, 0.0, HalfPi),
      WallPosition(-width / 2.0, 0.0, HalfPi) ]
  }

  /** Box of a wall exactly as the program chooses it: the rotation flag
      selects (width, height, thickness) or (thickness, height, depth). */
  function AsWrittenWallBox(pos: WallPosition, width: real, depth: real, height: real): Box
  {
    if pos.rot == 0.0 then Box(width, height, WallThickness)
    else Box(WallThickness, height, depth)
  }

  /** Box of a wall as evidently intended: a rotated wall is laid out along
      its own x axis, so that the quarter turn stands it along the room's z
      axis. */
  function WallBox(pos: WallPosition, width: real, depth: real, height: real): Box
  {
    if pos.rot == 0.0 then Box(width, height, WallThickness)
    else Box(depth, height, WallThickness)
  }

  /** The wall mesh placed at `pos`, half its height above the floor. */
  function WallAt(pos: WallPosition, box: Box, height: real): Wall
  {
    Wall(box, pos.x, height / 2.0, pos.z, pos.rot)
  }

  /** The four walls of a room (with the intended box selection). */
  function Walls(width: real, depth: real, height: real): (ws: seq<Wall>)
    ensures |ws| == 4
  {
    var ps := WallPositions(width, depth);
    seq(4, i requires 0 <= i < 4 => WallAt(ps[i], WallBox(ps[i], width, depth, height), height))
  }

  /** The four walls of a room with the box selection as written. */
  function AsWrittenWalls(width: real, depth: real, height: real): (ws: seq<Wall>)
    ensures |ws| == 4
  {
    var ps := WallPositions(width, depth);
    seq(4, i requires 0 <= i < 4 => WallAt(ps[i], AsWrittenWallBox(ps[i], width, depth, height), height))
  }

  /** The ground rectangle a wall of a room centred at (ox, oz) covers. A
      quarter turn about y swaps the box's x and z extents; a box centred on
      its position covers the same rectangle whichever way it is turned. */
  function Footprint(w: Wall, ox: real, oz: real): (f: Bounds)
    requires w.rotY == 0.0 || w.rotY == HalfPi
    ensures f.minX + f.maxX == 2.0 * (ox + w.x) && f.minZ + f.maxZ == 2.0 * (oz + w.z)
    ensures w.rotY == 0.0 ==> f.maxX - f.minX == w.box.sizeX && f.maxZ - f.minZ == w.box.sizeZ
    ensures w.rotY == HalfPi ==> f.maxX - f.minX == w.box.sizeZ && f.maxZ - f.minZ == w.box.sizeX
  {
    var hx := (if w.rotY == 0.0 then w.box.sizeX else w.box.sizeZ) / 2.0;
    var hz := (if w.rotY == 0.0 then w.box.sizeZ else w.box.sizeX) / 2.0;
    Bounds(ox + w.x - hx, ox + w.x + hx, oz + w.z - hz, oz + w.z + hz)
  }

  /** The footprint `f` runs along the whole x extent of `b`, with its
      centre line at z = `atZ`, one wall thickness deep. */
  predicate AlongX(f: Bounds, b: Bounds, atZ: real)
  {
    f.minX == b.minX && f.maxX == b.maxX && f.minZ + f.maxZ == 2.0 * atZ
    && f.maxZ - f.minZ == WallThickness
  }

  /** The footprint `f` runs along the whole z extent of `b`, with its
      centre line at x = `atX`, one wall thickness wide. */
  predicate AlongZ(f: Bounds, b: Bounds, atX: real)
  {
    f.minZ == b.minZ && f.maxZ == b.maxZ && f.minX + f.maxX == 2.0 * atX
    && f.maxX - f.minX == WallThickness
  }

  /** Each of a room's four walls stands on one edge of the room's bounds
      and covers that whole edge: front on maxZ, back on minZ, right on
      maxX, left on minX. Every wall reaches from the floor to the ceiling. */
  lemma WallsLieOnBounds(x: real, z: real, width: real, depth: real, height: real)
    ensures var ws, b := Walls(width, depth, height), RoomBounds(x, z, width, depth);
      && (forall i :: 0 <= i < 4 ==> ws[i].rotY == 0.0 || ws[i].rotY == HalfPi)
      && AlongX(Footprint(ws[0], x, z), b, b.maxZ)
      && AlongX(Footprint(ws[1], x, z), b, b.minZ)
      && AlongZ(Footprint(ws[2], x, z), b, b.maxX)
      && AlongZ(Footprint(ws[3], x, z), b, b.minX)
      && (forall i :: 0 <= i < 4 ==> ws[i].box.sizeY == height && 2.0 * ws[i].y == height)
  {
    var ws, b := Walls(width, depth, height), RoomBounds(x, z, width, depth);
    var ps := WallPositions(width, depth);
    assert ws[2] == WallAt(ps[2], Box(depth, height, WallThickness), height);
    assert ws[3] == WallAt(ps[3], Box(depth, height, WallThickness), height);
  }

  /** As written, the front and back walls are the intended ones, so they
      stand on their edges of the room's bounds; the box choice goes wrong
      for the two side walls only. */
  lemma AsWrittenFrontBackWallsLieOnBounds(x: real, z: real, width: real, depth: real, height: real)
    ensures AsWrittenWalls(width, depth, height)[..2] == Walls(width, depth, height)[..2]
    ensures var ws, b := AsWrittenWalls(width, depth, height), RoomBounds(x, z, width, depth);
      && ws[0].rotY == 0.0 && ws[1].rotY == 0.0
      && AlongX(Footprint(ws[0], x, z), b, b.maxZ)
      && AlongX(Footprint(ws[1], x, z), b, b.minZ)
  {
    var aw, cw := AsWrittenWalls(width, depth, height), Walls(width, depth, height);
    var ps := WallPositions(width, depth);
    assert aw[0] == WallAt(ps[0], Box(width, height, WallThickness), height) == cw[0];
    assert aw[1] == WallAt(ps[1], Box(width, height, WallThickness), height) == cw[1];
    WallsLieOnBounds(x, z, width, depth, height);
  }

  /** As written, each side wall (right, left) covers a strip that runs along
      the x axis for the room's depth, not along its side. */
  lemma AsWrittenSideWallsRunAlongX(x: real, z: real, width: real, depth: real, height: real)
    ensures var ws := AsWrittenWalls(width, depth, height);
      forall i :: 2 <= i < 4 ==>
        ws[i].rotY == HalfPi
        && Footprint(ws[i], x, z).maxX - Footprint(ws[i], x, z).minX == depth
        && Footprint(ws[i], x, z).maxZ - Footprint(ws[i], x, z).minZ == WallThickness
  {
    var ws := AsWrittenWalls(width, depth, height);
    var ps := WallPositions(width, depth);
    assert ws[2] == WallAt(ps[2], Box(WallThickness, height, depth), height);
    assert ws[3] == WallAt(ps[3], Box(WallThickness, height, depth), height);
  }

  /** With the default dimensions, the lobby's right wall as written covers
      the point (2.5, 0), which lies inside the room 2.5 units from every
      edge; none of the intended walls covers it. */
  lemma AsWrittenRightWallCutsLobby()
    ensures Contains(RoomBounds(0.0, 0.0, RoomWidth, RoomDepth), 2.5, 0.0)
    ensures Contains(Footprint(AsWrittenWalls(RoomWidth, RoomDepth, RoomHeight)[2], 0.0, 0.0), 2.5, 0.0)
    ensures forall i :: 0 <= i < 4 ==>
      var w := Walls(RoomWidth, RoomDepth, RoomHeight)[i];
      (w.rotY == 0.0 || w.rotY == HalfPi) && !Contains(Footprint(w, 0.0, 0.0), 2.5, 0.0)
  {
    AsWrittenSideWallsRunAlongX(0.0, 0.0, RoomWidth, RoomDepth, RoomHeight);
    WallsLieOnBounds(0.0, 0.0, RoomWidth, RoomDepth, RoomHeight);
  }
}
