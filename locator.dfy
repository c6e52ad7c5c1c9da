/** The room locator (`getCurrentRoom` in main.js): the name of the first
    room, in list order, whose ground rectangle holds the camera's x and z,
    or "Hallway" when there is none. */
module Locator {
  import opened Layout
  import opened Building

  /** The label shown when the camera is in no room. */
  const Hallway: string := "Hallway"

  /** A camera position. */
  datatype Vec3 = Vec3(x: real, y: real, z: real)

  /** Room `r` holds position `p`: inclusive containment in x and z, y ignored. */
  predicate InRoom(r: Room, p: Vec3)
  {
    Contains(r.bounds, p.x, p.z)
  }

  /** `rooms[i]` is the first room of the list that holds `p`. */
  predicate FirstMatch(rooms: seq<Room>, p: Vec3, i: int)
  {
    0 <= i < |rooms| && InRoom(rooms[i], p) && forall j :: 0 <= j < i ==> !InRoom(rooms[j], p)
  }

  /** No room of the list holds `p`. */
  predicate NoMatch(rooms: seq<Room>, p: Vec3)
  {
    forall i :: 0 <= i < |rooms| ==> !InRoom(rooms[i], p)
  }

  /** The locator as a recursive scan of the room list. */
  function Locate(rooms: seq<Room>, p: Vec3): string
  {
    if rooms == [] then Hallway
    else if InRoom(rooms[0], p) then rooms[0].name
    else Locate(rooms[1..], p)
  }

  /** The locator answers the name of the first room holding `p`, and
      "Hallway" when no room holds it. */
  lemma {:induction false} LocateFirstMatch(rooms: seq<Room>, p: Vec3)
    ensures forall i :: FirstMatch(rooms, p, i) ==> Locate(rooms, p) == rooms[i].name
    ensures NoMatch(rooms, p) ==> Locate(rooms, p) == Hallway
  {
    if rooms != [] && !InRoom(rooms[0], p) {
      LocateFirstMatch(rooms[1..], p);
      forall i | FirstMatch(rooms, p, i)
        ensures FirstMatch(rooms[1..], p, i - 1)
      {
        assert i != 0;
      }
      if NoMatch(rooms, p) {
        assert NoMatch(rooms[1..], p);
      }
    } else if rooms != [] {
      forall i | FirstMatch(rooms, p, i)
        ensures i == 0
      {
      }
    }
  }

  /** The camera's height has no effect on the answer. */
  lemma {:induction false} LocateIgnoresHeight(rooms: seq<Room>, p: Vec3, q: Vec3)
    requires p.x == q.x && p.z == q.z
    ensures Locate(rooms, p) == Locate(rooms, q)
  {
    if rooms != [] {
      LocateIgnoresHeight(rooms[1..], p, q);
    }
  }

  /** `getCurrentRoom`: a `for` loop over the rooms with an early return. */
  method GetCurrentRoom(rooms: seq<Room>, pos: Vec3) returns (name: string)
    ensures forall i :: FirstMatch(rooms, pos, i) ==> name == rooms[i].name
    ensures NoMatch(rooms, pos) ==> name == Hallway
    ensures name == Locate(rooms, pos)
  {
    var i := 0;
    while i < |rooms|
      invariant 0 <= i <= |rooms|
      invariant forall j :: 0 <= j < i ==> !InRoom(rooms[j], pos)
      invariant Locate(rooms[i..], pos) == Locate(rooms, pos)
    {
      var b := rooms[i].bounds;
      if pos.x >= b.minX && pos.x <= b.maxX && pos.z >= b.minZ && pos.z <= b.maxZ {
        assert FirstMatch(rooms, pos, i);
        return rooms[i].name;
      }
      assert rooms[i..][1..] == rooms[i + 1..];
      i := i + 1;
    }
    return Hallway;
  }

  /** Two rectangles are separated: a gap lies between them along x or z. */
  predicate Separated(a: Bounds, b: Bounds)
  {
    a.maxX < b.minX || b.maxX < a.minX || a.maxZ < b.minZ || b.maxZ < a.minZ
  }

  /** Any two different rooms of the list have separated rectangles. */
  predicate NonOverlapping(rooms: seq<Room>)
  {
    forall a, b :: a in rooms && b in rooms && a != b ==> Separated(a.bounds, b.bounds)
  }

  /** Separated rectangles share no point. */
  lemma SeparatedShareNoPoint(a: Bounds, b: Bounds, x: real, z: real)
    requires Separated(a, b)
    ensures !(Contains(a, x, z) && Contains(b, x, z))
  {
  }

  /** When rooms do not overlap, the locator names the one room that holds
      the position, wherever that room stands in the list. */
  lemma {:induction false} LocateUnique(rooms: seq<Room>, p: Vec3, r: Room)
    requires NonOverlapping(rooms)
    requires r in rooms && InRoom(r, p)
    ensures Locate(rooms, p) == r.name
  {
    if rooms[0] != r {
      SeparatedShareNoPoint(rooms[0].bounds, r.bounds, p.x, p.z);
      assert r in rooms[1..];
      LocateUnique(rooms[1..], p, r);
    }
  }

  /** When rooms do not overlap, any reordering of the list gives the same
      answer for every position. */
  lemma LocateOrderIndependent(a: seq<Room>, b: seq<Room>, p: Vec3)
    requires NonOverlapping(a)
    requires multiset(a) == multiset(b)
    ensures Locate(a, p) == Locate(b, p)
  {
    assert forall r :: r in a <==> r in b by {
      forall r ensures r in a <==> r in b {
        assert r in a <==> r in multiset(a);
        assert r in b <==> r in multiset(b);
      }
    }
    if r :| r in a && InRoom(r, p) {
      LocateUnique(a, p, r);
      LocateUnique(b, p, r);
    } else {
      LocateFirstMatch(a, p);
      LocateFirstMatch(b, p);
      assert NoMatch(a, p) by {
        forall i | 0 <= i < |a| ensures !InRoom(a[i], p) {
          assert a[i] in a;
        }
      }
      assert NoMatch(b, p) by {
        forall i | 0 <= i < |b| ensures !InRoom(b[i], p) {
          assert b[i] in b;
        }
      }
    }
  }

  /** The five default rooms do not overlap: the offsets of room size plus
      2 leave a 2-unit gap between neighbouring rooms. */
  lemma DefaultRoomsNonOverlapping()
    ensures NonOverlapping(DefaultRooms())
  {
  }

  /** The locator's answer for the default building does not depend on the
      order in which the rooms were collected. */
  lemma DefaultLocateAnyOrder(rooms: seq<Room>, p: Vec3)
    requires multiset(rooms) == multiset(DefaultRooms())
    ensures Locate(rooms, p) == Locate(DefaultRooms(), p)
  {
    DefaultRoomsNonOverlapping();
    LocateOrderIndependent(DefaultRooms(), rooms, p);
  }

  /** Sample answers for the default building, at any height: room centres,
      inclusive room edges, and the gap between the lobby and Office 1. The
      point 9.5 units along x lies inside Office 1, whose bounds start at 7. */
  lemma DefaultLocateSamples(y: real)
    ensures Locate(DefaultRooms(), Vec3(0.0, y, 0.0)) == "Lobby"
    ensures Locate(DefaultRooms(), Vec3(12.0, y, 0.0)) == "Office 1"
    ensures Locate(DefaultRooms(), Vec3(-12.0, y, 0.0)) == "Office 2"
    ensures Locate(DefaultRooms(), Vec3(0.0, y, 12.0)) == "Conference Room"
    ensures Locate(DefaultRooms(), Vec3(0.0, y, -12.0)) == "Kitchen"
    ensures Locate(DefaultRooms(), Vec3(6.0, y, 0.0)) == Hallway
    ensures Locate(DefaultRooms(), Vec3(5.0, y, 5.0)) == "Lobby"
    ensures Locate(DefaultRooms(), Vec3(7.0, y, -5.0)) == "Office 1"
    ensures Locate(DefaultRooms(), Vec3(9.5, y, 0.0)) == "Office 1"
    ensures Locate(DefaultRooms(), Vec3(12.0, y, 12.0)) == Hallway
  {
    var rs := DefaultRooms();
    DefaultRoomsNonOverlapping();
    assert rs[2] in rs && rs[3] in rs && rs[4] in rs;
    LocateUnique(rs, Vec3(-12.0, y, 0.0), rs[2]);
    LocateUnique(rs, Vec3(0.0, y, 12.0), rs[3]);
    LocateUnique(rs, Vec3(0.0, y, -12.0), rs[4]);
    LocateFirstMatch(rs, Vec3(6.0, y, 0.0));
    LocateFirstMatch(rs, Vec3(12.0, y, 12.0));
  }

  /** As written, every point of each hallway's floor lies inside the outer
      room that hallway should lead to, so the locator names that room:
      hallway 0 is in Office 1, 1 in Office 2, 2 in the conference room and
      3 in the kitchen. */
  lemma AsWrittenHallwayInsideRoom(i: int, p: Vec3)
    requires 0 <= i < 4
    requires Contains(HallwayArea(AsWrittenHallways()[i]), p.x, p.z)
    ensures Locate(DefaultRooms(), p) == DefaultRooms()[i + 1].name
  {
    var rs := DefaultRooms();
    DefaultRoomsNonOverlapping();
    assert rs[i + 1] in rs;
    LocateUnique(rs, p, rs[i + 1]);
  }

  /** The intended hallways bridge the gaps: each one's floor starts at the
      lobby's edge and ends at the edge of the room it leads to, across the
      full side of both rooms. */
  lemma HallwaysBridgeGaps()
    ensures var rs, lobby := DefaultRooms(), DefaultRooms()[0].bounds;
      && HallwayArea(Hallways()[0]) == Bounds(lobby.maxX, rs[1].bounds.minX, lobby.minZ, lobby.maxZ)
      && HallwayArea(Hallways()[1]) == Bounds(rs[2].bounds.maxX, lobby.minX, lobby.minZ, lobby.maxZ)
      && HallwayArea(Hallways()[2]) == Bounds(lobby.minX, lobby.maxX, lobby.maxZ, rs[3].bounds.minZ)
      && HallwayArea(Hallways()[3]) == Bounds(lobby.minX, lobby.maxX, rs[4].bounds.maxZ, lobby.minZ)
  {
  }

  /** Every point strictly inside an intended hallway's floor is reported as
      "Hallway". */
  lemma HallwayInteriorIsHallway(i: int, p: Vec3)
    requires 0 <= i < 4
    requires var a := HallwayArea(Hallways()[i]); a.minX < p.x < a.maxX && a.minZ < p.z < a.maxZ
    ensures Locate(DefaultRooms(), p) == Hallway
  {
    var rs := DefaultRooms();
    assert NoMatch(rs, p);
    LocateFirstMatch(rs, p);
  }
}
