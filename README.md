# 3D walkthrough: building layout, room locator and first-person controls

A browser demo renders a small building, a lobby with four rooms around it, and lets the user walk
through it in first person. This project models the logic inside `main.js`, leaving out the
rendering library around it:

- **Layout** (`layout.dfy`): the room constants (10 × 10 × 3, walls 0.2 thick). `createRoom`
  computes room bounds as the room's centre plus or minus its half-extent. It places four walls
  (front, back, right, left) and picks each wall's box from its 0° or 90° rotation flag.
- **Building** (`building.dfy`): the building group as a class whose `children` sequence grows
  in place. It has `createRoom`, `createHallway` and `createBuilding`, which places the five named
  rooms at offsets of room size plus 2. The `traverse` that pushes every named room onto `rooms`
  is a loop proved against a recursive specification.
- **Locator** (`locator.dfy`): `getCurrentRoom`, written as a recursive function and as the
  looping method it specifies. It finds the first room whose closed x/z rectangle holds the
  camera, or returns "Hallway". It is proved independent of height, and independent of list
  order when the rooms do not overlap, which holds for the five default rooms.
- **Input** (`input.dfy`): the six movement flags as a class. Key-down, key-up and window blur
  are methods on it.
- **Camera** (`camera.dfy`): the camera pose and look angles as a class. Mouse-look clamps the
  pitch to [-π/2, π/2] while the pointer is locked. One frame of `animate` does four things. It
  clamps the frame step to (0, 0.1] s. It moves the camera horizontally. It moves the camera
  vertically or pins it at eye height 1.6. It looks up the room.

Coordinates, times and angles are Dafny `real`s, standing in for JavaScript doubles. `Math.PI / 2`
is the constant `HalfPi = 1.5707963267948966`. Rotations are only ever 0 or that quarter turn, so
a quarter turn is modelled as swapping a box's x and z extents.

## Model

| member | source | states |
|---|---|---|
| `Layout.RoomBounds` | main.js:153-158 | a room's bounds are exactly as wide and deep as the room and centred on its origin |
| `Layout.WallPositions` | main.js:112-117 | four wall placements in the order front (0, depth/2), back (0, −depth/2), both unrotated, then right (width/2, 0) and left (−width/2, 0), both turned a quarter turn |
| `Layout.Footprint` | main.js:120-127 | a wall's ground rectangle is centred on its position; a quarter turn swaps the box's x and z extents |
| `Layout.WallsLieOnBounds` | main.js:112-131 | with the corrected box choice, every wall stands on its own edge of the room's bounds, covers that whole edge one thickness deep, and reaches from floor to ceiling |
| `Layout.AsWrittenFrontBackWallsLieOnBounds` | main.js:112-131 | as written, the front and back walls equal the corrected ones and stand on the room's maxZ and minZ edges, covering each edge one thickness deep; only the side walls differ |
| `Layout.AsWrittenSideWallsRunAlongX` | main.js:119-127 | with the box choice as written, the right and left walls cover a strip as long as the room's depth along x, not along the room's side |
| `Layout.AsWrittenRightWallCutsLobby` | main.js:115-127 | as written, the lobby's right wall covers the interior point (2.5, 0); none of the corrected walls does |
| `Building.CreateRoom` | main.js:107-159 | appends one room group holding the four walls built one by one with the program's own box choice (`AsWrittenWalls`) and the room's bounds, and changes nothing else |
| `Building.CreateHallway` | main.js:161-196 | appends one unnamed hallway group with no bounds |
| `Building.HallwayArea` | main.js:165-194 | a hallway floor covers a rectangle of the hallway's width and depth centred on its position |
| `Building.NamedRoomsPush` | main.js:204-207 | visiting one more child adds exactly the room that child contributes, if any |
| `Building.NamedRoomsAppend` | main.js:203-208 | collecting rooms from two runs of children gives the first run's rooms followed by the second's |
| `Building.UnnamedChildren` | main.js:204-208 | children without a room name (ground plane, hallways) contribute no rooms |
| `Building.NamedRoomsOfRoomChildren` | main.js:203-208 | children that each carry a room contribute those rooms in child order |
| `Building.RoomNodesMatchDefaults` | main.js:84-96 | the five room groups `createBuilding` adds contribute Lobby, Office 1, Office 2, Conference Room and Kitchen with their numeric bounds |
| `Building.BuildingChildrenRooms` | main.js:73-105 | the default building has a 50 × 50 ground plane, then five room groups, then four hallway groups exactly as the program places them, at (±10, 0) and (0, ±10), and its named rooms are the five default rooms in order |
| `Building.NamedRoomsOfLayout` | main.js:203-208 | any ten children laid out as ground, five default-room groups, four unnamed children yield exactly the five default rooms |
| `Building.CreateBuilding` | main.js:73-105 | builds a fresh group holding exactly those ten children, with the walls and hallway offsets as the program writes them, whose named rooms are the five default rooms |
| `Building.CollectRooms` | main.js:203-208 | the traversal pushes exactly the children with a non-empty room name, in child order |
| `Building.Startup` | main.js:199-208 | after start-up, `rooms` is the five default rooms in assembly order |
| `Building.DefaultRoomsLayout` | main.js:84-96 | five rooms in the order Lobby, Office 1, Office 2, Conference Room, Kitchen; the Lobby is {-5, 5, -5, 5}; each is the bounds of a 10 × 10 room at offsets 0 or ±12 |
| `Locator.LocateFirstMatch` | main.js:378-390 | the locator answers the name of the first room in list order that holds the point (inclusive edges) and "Hallway" when none does |
| `Locator.GetCurrentRoom` | main.js:378-390 | the loop with early return gives the first match's name, or "Hallway" when nothing matches, and agrees with the recursive locator |
| `Locator.LocateIgnoresHeight` | main.js:383-384 | two positions with the same x and z get the same answer whatever their heights |
| `Locator.LocateUnique` | main.js:381-387 | when rooms do not overlap, a room holding the point is the one named, wherever it stands in the list |
| `Locator.LocateOrderIndependent` | main.js:381-387 | when rooms do not overlap, any reordering of the room list gives the same answer everywhere |
| `Locator.DefaultRoomsNonOverlapping` | main.js:84-96 | any two different default rooms are separated by a gap in x or z |
| `Locator.DefaultLocateAnyOrder` | main.js:203-208 | the default building's answer does not depend on the order the rooms were collected in |
| `Locator.DefaultLocateSamples` | main.js:378-390 | (0,y,0) is Lobby, (12,y,0) is Office 1, (6,y,0) is Hallway, (5,y,5) and (7,y,−5) are on inclusive edges, (9.5,y,0) is Office 1, and the other room centres answer correctly, for every y |
| `Locator.AsWrittenHallwayInsideRoom` | main.js:99-102 | as written, every point of each hallway's floor lies in the outer room it leads to, and the locator names that room |
| `Locator.HallwaysBridgeGaps` | main.js:98-102 | each corrected hallway's floor runs from the lobby's edge to the facing edge of its room, across the full side |
| `Locator.HallwayInteriorIsHallway` | main.js:98-102 | every point strictly inside a corrected hallway's floor is reported as "Hallway" |
| `Input.FlagForMatchesCodes` | main.js:279-303 | KeyW, KeyS, KeyA, KeyD, Space and ShiftLeft/ShiftRight drive forward, backward, left, right, up and down, in both directions of the mapping; every other code drives nothing |
| `Input.InputState.constructor` | main.js:211-216 | all six flags start released |
| `Input.InputState.KeyDown` | main.js:273-304 | sets exactly the flag its code drives, leaves the other five (all six for an unknown code) unchanged, and suppresses the default action for Space only |
| `Input.InputState.KeyUp` | main.js:306-328 | clears exactly the flag its code drives and leaves the others unchanged |
| `Input.InputState.Blur` | main.js:337-339 | all six flags read released afterwards, whatever their state before |
| `Input.PressRelease` | main.js:273-328 | a key held reads pressed; after its release (or the other Shift key's) its flag is released and every other flag is as before |
| `Camera.ClampDelta` | main.js:397-401 | the frame step lies in (0, 0.1]: above 0.1 becomes 0.1, zero or negative becomes 0.016, anything in between is kept |
| `Camera.ClampPitch` | main.js:268 | the pitch lies in [−π/2, π/2]; an in-range pitch is kept and one beyond a limit becomes that limit |
| `Camera.ClampsIdempotent` | main.js:397-401 | clamping an already clamped step or pitch changes nothing |
| `Camera.Controls.constructor` | main.js:15 | the camera starts at (0, 1.6, 0), looking straight ahead, with the pointer not locked |
| `Camera.Controls.PointerLockChange` | main.js:254-256 | the pointer is locked exactly when the canvas holds the pointer lock |
| `Camera.Controls.MouseMove` | main.js:259-270 | unlocked, nothing changes; locked, yaw decreases by dx·0.002 without bound and pitch becomes clamp(old pitch − dy·0.002); the pitch stays within [−π/2, π/2] after any sequence of samples |
| `Camera.Controls.Frame` | main.js:393-472 | the step is the clamped elapsed time; x and z move by exactly the horizontal move vector; with no vertical flag y is exactly 1.6 for any prior height, up alone adds 5·step, down alone subtracts it, both leave y unchanged; requires a zero move vector when each pair of opposite horizontal flags cancels (both held or both released); the room shown is the locator's answer for the new position |

## Findings

| source | as written | input that shows it | evidently intended | confidence | as-written member | corrected member |
|---|---|---|---|---|---|---|
| main.js:119-127 | a side wall (rotation π/2) gets the box (thickness, height, depth) and is then turned a quarter turn, so it runs along x | the lobby's right wall at (5, 0) covers x from 0 to 10, including the interior point (2.5, 0) | the box (depth, height, thickness), so that after the turn the wall runs along the room's side | high; not executed | `Layout.AsWrittenRightWallCutsLobby` | `Layout.WallsLieOnBounds` |
| main.js:99-102 | hallways are centred at ±roomWidth and ±roomDepth (10 units out), inside the outer rooms | (10, y, 0), the centre of the first hallway, is reported as "Office 1" | centred in the 2-unit gaps at ±(roomWidth/2 + 1), which bridge the lobby and each room | low; not executed (the intended centre is less certain: the hallway's side walls at ±width/2 would then stand on the room edges) | `Locator.AsWrittenHallwayInsideRoom` | `Locator.HallwayInteriorIsHallway` |

The building the model assembles is the one the program builds. `Building.CreateRoom` picks wall
boxes with `Layout.AsWrittenWallBox`, and `Building.CreateBuilding` places hallways as
`Building.AsWrittenHallways` does. The corrected definitions, `Layout.WallBox`, `Layout.Walls`
and `Building.Hallways`, stand beside them, with the lemmas that state the intended properties.

## Left out

- Scene, camera, renderer, lights, fog and materials (main.js:4-64): library setup with no logic.
- Floor, ceiling and hallway-wall meshes, shadows and materials (main.js:133-146, 161-196): only
  the wall boxes and the hallways' placement are kept. Hallways have no name and no bounds, so
  they never affect the locator.
- The traversal walks only the building's direct children. Nested meshes and the building group
  itself carry no room name, so they add no rooms.
- DOM and focus wiring, the click that requests pointer lock, listener registration and resize
  handling (main.js:229-256, 331-334, 475-479): browser I/O. The pointer-lock change reaches the
  model as a boolean parameter.
- Controls.MouseMove: the `movementX || mozMovementX || webkitMovementX || 0` fallback is browser
  I/O. A missing value reaches the model as 0.
- Controls.MouseMove: the Euler ↔ quaternion round trip is a library call (main.js:265, 269). Yaw
  and pitch are stored reals, so the model does not capture the conversion folding yaw back into
  [−π, π].
- Controls.Frame: the move vector is derived with `getWorldDirection`, `crossVectors`, `normalize`
  and length scaling (main.js:404-438). These involve square roots and library calls, so the
  vector is a parameter. What is kept is that it has no vertical part and is zero when
  forward/backward and left/right each cancel (a precondition of the frame). The normalisation property
  (diagonal movement is no faster) is not modelled.
- Controls.Frame: with both vertical flags set, the model states y is unchanged. In doubles,
  (y + a) − a can differ from y by rounding.
- `checkCollision` and the commented-out revert (main.js:342-375, 453-459): dead code built on
  `Box3`.
- `requestAnimationFrame`, `performance.now`, `console.log` and writing the room name into the
  page: host timing and I/O. The time is a parameter and the room name is returned.
