/**
 * The room graph of a dungeon, stated over values: a dungeon's rooms are a sequence of `Room`
 * records and a link is the id of the neighbouring room. Directions are numbered as in the game:
 * 0 north (y + 1), 1 south (y - 1), 2 west (x - 1), 3 east (x + 1).
 *
 * The ghost placement of a room is its floor number and its (x, y) coordinate on that floor.
 * `Embedded` says the links are exactly the lattice adjacencies of that placement; the dungeon
 * generator maintains it, and the game's navigation properties follow from it.
 */
module DungeonGraph {
  import opened Wrappers
  import opened Rooms

  type Coord = (int, int)

  predicate IsDirection(d: int) { 0 <= d < 4 }

  /** The link a room holds in direction `d`. */
  function Link(r: Room, d: int): Option<nat>
    requires IsDirection(d)
  {
    if d == 0 then r.north else if d == 1 then r.south else if d == 2 then r.west else r.east
  }

  /** The room with its link in direction `d` replaced by `v`. */
  function SetLink(r: Room, d: int, v: Option<nat>): (s: Room)
    requires IsDirection(d)
    ensures Link(s, d) == v
    ensures forall e :: IsDirection(e) && e != d ==> Link(s, e) == Link(r, e)
  {
    if d == 0 then r.(north := v) else if d == 1 then r.(south := v)
    else if d == 2 then r.(west := v) else r.(east := v)
  }

  /** The direction that leads back: north and south, west and east. */
  function Opposite(d: int): (e: int)
    requires IsDirection(d)
    ensures IsDirection(e) && e != d
  {
    if d == 0 then 1 else if d == 1 then 0 else if d == 2 then 3 else 2
  }

  /** The lattice coordinate one step from `c` in direction `d`. */
  function Offset(c: Coord, d: int): Coord
    requires IsDirection(d)
  {
    if d == 0 then (c.0, c.1 + 1) else if d == 1 then (c.0, c.1 - 1)
    else if d == 2 then (c.0 - 1, c.1) else (c.0 + 1, c.1)
  }

  /** Stepping in a direction and then in its opposite comes back; the opposite of the opposite is the direction. */
  lemma OffsetOpposite(c: Coord, d: int)
    requires IsDirection(d)
    ensures Offset(Offset(c, d), Opposite(d)) == c
    ensures Offset(Offset(c, Opposite(d)), d) == c
    ensures Opposite(Opposite(d)) == d
  {
  }

  /** Distinct directions lead from one coordinate to distinct coordinates, and never back to it. */
  lemma OffsetInjective(c: Coord, d: int, e: int)
    requires IsDirection(d) && IsDirection(e)
    ensures Offset(c, d) != c
    ensures Offset(c, d) == Offset(c, e) <==> d == e
  {
  }

  /** The set of rooms a room links to. */
  function Neighbours(r: Room): (ns: set<nat>)
    ensures forall j :: j in ns <==> exists d :: IsDirection(d) && Link(r, d) == Some(j)
  {
    assert Link(r, 0) == r.north && Link(r, 1) == r.south && Link(r, 2) == r.west && Link(r, 3) == r.east;
    (if r.north.Some? then {r.north.value} else {}) + (if r.south.Some? then {r.south.value} else {})
    + (if r.west.Some? then {r.west.value} else {}) + (if r.east.Some? then {r.east.value} else {})
  }

  function Lookup(m: map<Coord, nat>, c: Coord): Option<nat>
  {
    if c in m then Some(m[c]) else None
  }

  predicate Injective(m: map<Coord, nat>)
  {
    forall a, b :: a in m && b in m && m[a] == m[b] ==> a == b
  }

  /** Every id a map holds names an existing room. */
  predicate ValuesBelow(m: map<Coord, nat>, n: nat)
  {
    forall c :: c in m ==> m[c] < n
  }

  // ---------------------------------------------------------------------------------------------
  // Linking

  /**
   * `Dungeon::linkRooms` over the room list: `r1` links to `r2` in `direction` and `r2` links back
   * in the opposite direction; a direction outside 0..3 changes nothing.
   */
  function Linked(rooms: seq<Room>, r1: nat, r2: nat, direction: int): (rs: seq<Room>)
    requires r1 < |rooms| && r2 < |rooms|
    ensures |rs| == |rooms|
    ensures !IsDirection(direction) ==> rs == rooms
    ensures IsDirection(direction) ==>
      Link(rs[r1], direction) == Some(r2) && Link(rs[r2], Opposite(direction)) == Some(r1)
    ensures forall i :: 0 <= i < |rooms| && i != r1 && i != r2 ==> rs[i] == rooms[i]
    ensures IsDirection(direction) ==>
      forall i, d :: 0 <= i < |rooms| && IsDirection(d) && (i, d) != (r1, direction) && (i, d) != (r2, Opposite(direction))
        ==> Link(rs[i], d) == Link(rooms[i], d)
  {
    if !IsDirection(direction) then rooms
    else
      var first := rooms[r1 := SetLink(rooms[r1], direction, Some(r2))];
      first[r2 := SetLink(first[r2], Opposite(direction), Some(r1))]
  }

  /** One of `Dungeon::checkAndLink`'s four checks: link to the room found at `Offset(c, d)`, if any. */
  function LinkIfPresent(rooms: seq<Room>, newRoom: nat, c: Coord, roomMap: map<Coord, nat>, d: int): seq<Room>
    requires newRoom < |rooms| && ValuesBelow(roomMap, |rooms|) && IsDirection(d)
  {
    if Offset(c, d) in roomMap then Linked(rooms, newRoom, roomMap[Offset(c, d)], d) else rooms
  }

  /** `Dungeon::checkAndLink` over the room list: the checks in the source's order north, south, west, east. */
  function Stitch(rooms: seq<Room>, newRoom: nat, c: Coord, roomMap: map<Coord, nat>): (rs: seq<Room>)
    requires newRoom < |rooms| && ValuesBelow(roomMap, |rooms|)
    ensures |rs| == |rooms|
    ensures forall i :: 0 <= i < |rooms| && i != newRoom && i !in roomMap.Values ==> rs[i] == rooms[i]
  {
    var r0 := LinkIfPresent(rooms, newRoom, c, roomMap, 0);
    var r1 := LinkIfPresent(r0, newRoom, c, roomMap, 1);
    var r2 := LinkIfPresent(r1, newRoom, c, roomMap, 2);
    LinkIfPresent(r2, newRoom, c, roomMap, 3)
  }

  /**
   * The effect of `Stitch` slot by slot: the new room links to every mapped lattice neighbour of
   * `c`, each such neighbour links back in the opposite direction, and no other link changes.
   */
  ghost predicate StitchedFrom(before: seq<Room>, after: seq<Room>, newRoom: nat, c: Coord, roomMap: map<Coord, nat>)
    requires newRoom < |before|
  {
    |after| == |before|
    && (forall d :: IsDirection(d) ==>
          Link(after[newRoom], d) == (if Offset(c, d) in roomMap then Some(roomMap[Offset(c, d)]) else Link(before[newRoom], d)))
    && (forall i, d :: 0 <= i < |before| && i != newRoom && IsDirection(d) ==>
          Link(after[i], d) ==
            (if Offset(c, Opposite(d)) in roomMap && roomMap[Offset(c, Opposite(d))] == i then Some(newRoom) else Link(before[i], d)))
  }

  /** One check of `checkAndLink`, slot by slot, when the map places the new room at `c` and is one-to-one. */
  lemma LinkIfPresentSlots(rooms: seq<Room>, newRoom: nat, c: Coord, roomMap: map<Coord, nat>, d: int)
    requires newRoom < |rooms| && ValuesBelow(roomMap, |rooms|) && IsDirection(d)
    requires Injective(roomMap) && c in roomMap && roomMap[c] == newRoom
    ensures var rs := LinkIfPresent(rooms, newRoom, c, roomMap, d);
      |rs| == |rooms|
      && Link(rs[newRoom], d) == (if Offset(c, d) in roomMap then Some(roomMap[Offset(c, d)]) else Link(rooms[newRoom], d))
      && (forall e :: IsDirection(e) && e != d ==> Link(rs[newRoom], e) == Link(rooms[newRoom], e))
      && (forall i, e :: 0 <= i < |rooms| && i != newRoom && IsDirection(e) ==>
            Link(rs[i], e) ==
              (if Opposite(e) == d && Offset(c, d) in roomMap && roomMap[Offset(c, d)] == i then Some(newRoom) else Link(rooms[i], e)))
  {
    OffsetInjective(c, d, d);
    forall e | IsDirection(e)
      ensures Opposite(e) == d <==> e == Opposite(d)
    {
      OffsetOpposite(c, e);
      OffsetOpposite(c, d);
    }
    if Offset(c, d) in roomMap {
      assert roomMap[Offset(c, d)] != newRoom;
    }
  }

  /** `Stitch` has the slot-by-slot effect `StitchedFrom` whenever the map is one-to-one and places the new room at `c`. */
  lemma {:induction false} StitchSlots(rooms: seq<Room>, newRoom: nat, c: Coord, roomMap: map<Coord, nat>)
    requires newRoom < |rooms| && ValuesBelow(roomMap, |rooms|)
    requires Injective(roomMap) && c in roomMap && roomMap[c] == newRoom
    ensures StitchedFrom(rooms, Stitch(rooms, newRoom, c, roomMap), newRoom, c, roomMap)
  {
    var r0 := LinkIfPresent(rooms, newRoom, c, roomMap, 0);
    LinkIfPresentSlots(rooms, newRoom, c, roomMap, 0);
    var r1 := LinkIfPresent(r0, newRoom, c, roomMap, 1);
    LinkIfPresentSlots(r0, newRoom, c, roomMap, 1);
    var r2 := LinkIfPresent(r1, newRoom, c, roomMap, 2);
    LinkIfPresentSlots(r1, newRoom, c, roomMap, 2);
    var r3 := LinkIfPresent(r2, newRoom, c, roomMap, 3);
    LinkIfPresentSlots(r2, newRoom, c, roomMap, 3);
    assert r3 == Stitch(rooms, newRoom, c, roomMap);
  }

  // ---------------------------------------------------------------------------------------------
  // Placement

  /**
   * The link of room `i` in direction `d` is the room of the same floor at the adjacent coordinate,
   * and is null exactly when there is none.
   */
  ghost predicate LinkExact(rooms: seq<Room>, pos: seq<Coord>, floor: seq<nat>, i: nat, d: int)
    requires |pos| == |rooms| && |floor| == |rooms| && i < |rooms| && IsDirection(d)
  {
    match Link(rooms[i], d)
    case Some(j) => j < |rooms| && floor[j] == floor[i] && pos[j] == Offset(pos[i], d)
    case None => forall j :: 0 <= j < |rooms| && floor[j] == floor[i] ==> pos[j] != Offset(pos[i], d)
  }

  /** Rooms occupy distinct coordinates on each floor and are linked exactly to their lattice neighbours. */
  ghost predicate Embedded(rooms: seq<Room>, pos: seq<Coord>, floor: seq<nat>)
  {
    |pos| == |rooms| && |floor| == |rooms|
    && (forall i, d :: 0 <= i < |rooms| && IsDirection(d) ==> LinkExact(rooms, pos, floor, i, d))
    && (forall i, j :: 0 <= i < |rooms| && 0 <= j < |rooms| && floor[i] == floor[j] && pos[i] == pos[j] ==> i == j)
  }

  /** In an embedded dungeon a link exists exactly between lattice-adjacent rooms of the same floor. */
  lemma {:induction false} LinkIffAdjacent(rooms: seq<Room>, pos: seq<Coord>, floor: seq<nat>, i: nat, j: nat, d: int)
    requires Embedded(rooms, pos, floor) && i < |rooms| && j < |rooms| && IsDirection(d)
    ensures Link(rooms[i], d) == Some(j) <==> floor[j] == floor[i] && pos[j] == Offset(pos[i], d)
  {
    assert LinkExact(rooms, pos, floor, i, d);
    match Link(rooms[i], d)
    case Some(k) =>
      if floor[j] == floor[i] && pos[j] == Offset(pos[i], d) {
        assert floor[k] == floor[j] && pos[k] == pos[j];
      }
    case None =>
  }

  /** Links are symmetric: if room `i` leads to `j` in direction `d`, then `j` leads back to `i` in the opposite direction. */
  lemma {:induction false} LinkSymmetric(rooms: seq<Room>, pos: seq<Coord>, floor: seq<nat>, i: nat, d: int)
    requires Embedded(rooms, pos, floor) && i < |rooms| && IsDirection(d) && Link(rooms[i], d).Some?
    ensures Link(rooms[i], d).value < |rooms|
    ensures Link(rooms[Link(rooms[i], d).value], Opposite(d)) == Some(i)
  {
    var j := Link(rooms[i], d).value;
    assert LinkExact(rooms, pos, floor, i, d);
    OffsetOpposite(pos[i], d);
    LinkIffAdjacent(rooms, pos, floor, j, i, Opposite(d));
  }

  /** The neighbour relation of an embedded dungeon is symmetric and stays inside the room list. */
  lemma NeighboursSymmetric(rooms: seq<Room>, pos: seq<Coord>, floor: seq<nat>, i: nat, j: nat)
    requires Embedded(rooms, pos, floor) && i < |rooms| && j in Neighbours(rooms[i])
    ensures j < |rooms| && i in Neighbours(rooms[j])
  {
    var d :| IsDirection(d) && Link(rooms[i], d) == Some(j);
    LinkSymmetric(rooms, pos, floor, i, d);
  }

  // ---------------------------------------------------------------------------------------------
  // Reachability

  /** A walk along links through existing rooms. */
  ghost predicate IsPath(rooms: seq<Room>, p: seq<nat>)
  {
    |p| > 0
    && (forall k :: 0 <= k < |p| ==> p[k] < |rooms|)
    && (forall k :: 0 <= k < |p| - 1 ==> p[k + 1] in Neighbours(rooms[p[k]]))
  }

  ghost predicate Reachable(rooms: seq<Room>, a: nat, b: nat)
  {
    exists p :: IsPath(rooms, p) && p[0] == a && p[|p| - 1] == b
  }

  lemma ReachableRefl(rooms: seq<Room>, a: nat)
    requires a < |rooms|
    ensures Reachable(rooms, a, a)
  {
    assert IsPath(rooms, [a]);
  }

  /** A reachable room's neighbours are reachable. */
  lemma ReachableStep(rooms: seq<Room>, a: nat, b: nat, c: nat)
    requires Reachable(rooms, a, b) && b < |rooms| && c < |rooms| && c in Neighbours(rooms[b])
    ensures Reachable(rooms, a, c)
  {
    var p :| IsPath(rooms, p) && p[0] == a && p[|p| - 1] == b;
    var q := p + [c];
    assert IsPath(rooms, q);
    assert q[0] == a && q[|q| - 1] == c;
  }

  lemma ReachableTrans(rooms: seq<Room>, a: nat, b: nat, c: nat)
    requires Reachable(rooms, a, b) && Reachable(rooms, b, c)
    ensures Reachable(rooms, a, c)
  {
    var p :| IsPath(rooms, p) && p[0] == a && p[|p| - 1] == b;
    var q :| IsPath(rooms, q) && q[0] == b && q[|q| - 1] == c;
    var r := p + q[1..];
    forall k | 0 <= k < |r| - 1
      ensures r[k + 1] in Neighbours(rooms[r[k]])
    {
      if k < |p| - 1 {
      } else {
        assert r[k] == q[k - |p| + 1] && r[k + 1] == q[k - |p| + 2];
      }
    }
    assert IsPath(rooms, r);
    assert r[|r| - 1] == c by {
      if |q| > 1 {
        assert r[|r| - 1] == q[|q| - 1];
      }
    }
  }

  /** In an embedded dungeon reachability is symmetric: every walk can be retraced. */
  lemma ReachableSymmetric(rooms: seq<Room>, pos: seq<Coord>, floor: seq<nat>, a: nat, b: nat)
    requires Embedded(rooms, pos, floor) && Reachable(rooms, a, b)
    ensures Reachable(rooms, b, a)
  {
    var p :| IsPath(rooms, p) && p[0] == a && p[|p| - 1] == b;
    var r := seq(|p|, k requires 0 <= k < |p| => p[|p| - 1 - k]);
    forall k | 0 <= k < |r| - 1
      ensures r[k + 1] in Neighbours(rooms[r[k]])
    {
      var m := |p| - 2 - k;
      assert r[k] == p[m + 1] && r[k + 1] == p[m];
      NeighboursSymmetric(rooms, pos, floor, p[m], p[m + 1]);
    }
    assert IsPath(rooms, r);
  }

  /**
   * A set of rooms that holds `a` and every neighbour of its members holds every room reachable
   * from `a`: the closure argument behind breadth-first search.
   */
  lemma {:induction false} ClosedHoldsReachable(rooms: seq<Room>, s: set<nat>, a: nat, b: nat)
    requires a in s
    requires forall x :: x in s && x < |rooms| ==> Neighbours(rooms[x]) <= s
    requires Reachable(rooms, a, b)
    ensures b in s
  {
    var p :| IsPath(rooms, p) && p[0] == a && p[|p| - 1] == b;
    var k := 0;
    while k < |p| - 1
      invariant 0 <= k < |p| && p[k] in s
    {
      assert p[k + 1] in Neighbours(rooms[p[k]]);
      k := k + 1;
    }
  }

  // ---------------------------------------------------------------------------------------------
  // Floor generation

  /**
   * The coordinate map of the floor being generated: it holds exactly the rooms `base..|pos|-1`,
   * all on floor `f`, each under its own coordinate.
   */
  ghost predicate IndexesFloor(roomMap: map<Coord, nat>, pos: seq<Coord>, floor: seq<nat>, base: nat, f: nat)
    requires |floor| == |pos|
  {
    base <= |pos|
    && (forall c :: c in roomMap ==> base <= roomMap[c] < |pos| && pos[roomMap[c]] == c)
    && (forall i :: base <= i < |pos| ==> floor[i] == f && pos[i] in roomMap && roomMap[pos[i]] == i)
  }

  /** Every link of a room of the floor being generated is the room the map holds at the adjacent coordinate. */
  ghost predicate FloorLinks(rooms: seq<Room>, pos: seq<Coord>, roomMap: map<Coord, nat>, base: nat)
    requires |pos| == |rooms|
  {
    forall i, d :: base <= i < |rooms| && IsDirection(d) ==> Link(rooms[i], d) == Lookup(roomMap, Offset(pos[i], d))
  }

  /**
   * The spanning tree recorded while the floor grows: every room after the first links, in
   * direction `parentDir`, to an earlier room of the floor, the room it was attached to.
   */
  ghost predicate Tree(rooms: seq<Room>, base: nat, parent: seq<nat>, parentDir: seq<int>)
  {
    base <= |rooms| && |parent| == |rooms| - base && |parentDir| == |parent|
    && forall k :: 0 < k < |parent| ==>
         base <= parent[k] < base + k && IsDirection(parentDir[k]) && Link(rooms[base + k], parentDir[k]) == Some(parent[k])
  }

  /** Some coordinate of a finite nonempty set lies furthest east. */
  lemma EastMost(s: set<Coord>) returns (c: Coord)
    requires s != {}
    ensures c in s && forall e :: e in s ==> e.0 <= c.0
  {
    var x :| x in s;
    if s == {x} {
      c := x;
    } else {
      var rest := EastMost(s - {x});
      c := if x.0 >= rest.0 then x else rest;
    }
  }

  /**
   * While the floor has a room, some room of it has no eastern link (the furthest east room), so
   * the generator's search for a room with a free side always succeeds.
   */
  lemma FreeSlotExists(rooms: seq<Room>, pos: seq<Coord>, floor: seq<nat>, roomMap: map<Coord, nat>, base: nat, f: nat)
    returns (c: Coord)
    requires |pos| == |rooms| && |floor| == |rooms|
    requires IndexesFloor(roomMap, pos, floor, base, f) && FloorLinks(rooms, pos, roomMap, base) && roomMap != map[]
    ensures c in roomMap && roomMap[c] < |rooms| && Link(rooms[roomMap[c]], 3) == None
  {
    c := EastMost(roomMap.Keys);
    var i := roomMap[c];
    assert base <= i < |rooms| && pos[i] == c;
    assert IsDirection(3);
    assert Link(rooms[i], 3) == Lookup(roomMap, Offset(pos[i], 3));
    assert Offset(c, 3) !in roomMap.Keys;
  }

  /**
   * One iteration of the generator's loop keeps its invariants: attaching a new room at the free
   * side `dir` of the room at `c0`, linking it back, and stitching it to its mapped neighbours
   * leaves every link of the floor equal to the map's lattice neighbour, and extends the tree.
   */
  lemma {:induction false} GrowthStep(rooms0: seq<Room>, pos0: seq<Coord>, floor0: seq<nat>, roomMap0: map<Coord, nat>,
                                      base: nat, f: nat, c0: Coord, dir: int, rooms3: seq<Room>,
                                      parent: seq<nat>, parentDir: seq<int>)
    requires |pos0| == |rooms0| && |floor0| == |rooms0|
    requires IndexesFloor(roomMap0, pos0, floor0, base, f) && FloorLinks(rooms0, pos0, roomMap0, base)
    requires Tree(rooms0, base, parent, parentDir)
    requires c0 in roomMap0 && IsDirection(dir) && Link(rooms0[roomMap0[c0]], dir) == None
    requires rooms3 == Stitch(Linked(rooms0 + [NewRoom], roomMap0[c0], |rooms0|, dir), |rooms0|, Offset(c0, dir),
                              roomMap0[Offset(c0, dir) := |rooms0|])
    ensures Offset(c0, dir) !in roomMap0
    ensures var roomMap1 := roomMap0[Offset(c0, dir) := |rooms0|];
      var pos1 := pos0 + [Offset(c0, dir)];
      |rooms3| == |rooms0| + 1
      && IndexesFloor(roomMap1, pos1, floor0 + [f], base, f)
      && FloorLinks(rooms3, pos1, roomMap1, base)
      && Tree(rooms3, base, parent + [roomMap0[c0]], parentDir + [Opposite(dir)])
  {
    var n := |rooms0|;
    var existing := roomMap0[c0];
    var newC := Offset(c0, dir);
    var pos1 := pos0 + [newC];
    var roomMap1 := roomMap0[newC := n];
    assert Link(rooms0[existing], dir) == Lookup(roomMap0, Offset(pos0[existing], dir));
    GrowthMap(roomMap0, pos0, floor0, base, f, newC);
    var rooms2 := Linked(rooms0 + [NewRoom], existing, n, dir);
    StitchSlots(rooms2, n, newC, roomMap1);
    forall i, d | base <= i < |rooms3| && IsDirection(d)
      ensures Link(rooms3[i], d) == Lookup(roomMap1, Offset(pos1[i], d))
    {
      GrowthSlot(rooms0, pos0, roomMap0, base, c0, dir, rooms2, rooms3, i, d);
    }
    OffsetOpposite(c0, dir);
    GrowthSlot(rooms0, pos0, roomMap0, base, c0, dir, rooms2, rooms3, n, Opposite(dir));
    GrowthTree(rooms0, pos0, roomMap0, rooms3, pos1, roomMap1, base, parent, parentDir, existing, Opposite(dir));
  }

  /** The tree extends by the new room, attached to the room it grew from; the older tree links are kept. */
  lemma {:induction false} GrowthTree(rooms0: seq<Room>, pos0: seq<Coord>, roomMap0: map<Coord, nat>,
                                      rooms: seq<Room>, pos: seq<Coord>, roomMap: map<Coord, nat>,
                                      base: nat, parent: seq<nat>, parentDir: seq<int>, existing: nat, e: int)
    requires Tree(rooms0, base, parent, parentDir)
    requires |pos0| == |rooms0| && |pos| == |rooms| == |rooms0| + 1 && pos[..|pos0|] == pos0
    requires FloorLinks(rooms0, pos0, roomMap0, base) && FloorLinks(rooms, pos, roomMap, base)
    requires forall c :: c in roomMap0 ==> c in roomMap && roomMap[c] == roomMap0[c]
    requires base <= existing < |rooms0| && IsDirection(e) && Link(rooms[|rooms0|], e) == Some(existing)
    ensures Tree(rooms, base, parent + [existing], parentDir + [e])
  {
    forall k | 0 < k < |parent|
      ensures Link(rooms[base + k], parentDir[k]) == Some(parent[k])
    {
      var i := base + k;
      var d := parentDir[k];
      assert pos[i] == pos0[i];
      assert Link(rooms0[i], d) == Lookup(roomMap0, Offset(pos0[i], d));
      assert Link(rooms[i], d) == Lookup(roomMap, Offset(pos[i], d));
    }
  }

  /** The map of the floor being generated names existing rooms only, also once the next room is added. */
  lemma IndexesFloorBelow(roomMap: map<Coord, nat>, pos: seq<Coord>, floor: seq<nat>, base: nat, f: nat, newC: Coord)
    requires |floor| == |pos| && IndexesFloor(roomMap, pos, floor, base, f)
    ensures ValuesBelow(roomMap, |pos|) && ValuesBelow(roomMap[newC := |pos|], |pos| + 1)
  {
  }

  /** Adding a room under a fresh coordinate keeps the floor's map exact and one-to-one. */
  lemma GrowthMap(roomMap0: map<Coord, nat>, pos0: seq<Coord>, floor0: seq<nat>, base: nat, f: nat, newC: Coord)
    requires |floor0| == |pos0| && IndexesFloor(roomMap0, pos0, floor0, base, f) && newC !in roomMap0
    ensures IndexesFloor(roomMap0[newC := |pos0|], pos0 + [newC], floor0 + [f], base, f)
    ensures Injective(roomMap0[newC := |pos0|])
  {
    var roomMap1 := roomMap0[newC := |pos0|];
    var pos1 := pos0 + [newC];
    forall a, b | a in roomMap1 && b in roomMap1 && roomMap1[a] == roomMap1[b]
      ensures a == b
    {
      assert pos1[roomMap1[a]] == a && pos1[roomMap1[b]] == b;
    }
  }

  /** One link of the floor after a growth step: it is the map's lattice neighbour. */
  lemma {:induction false} GrowthSlot(rooms0: seq<Room>, pos0: seq<Coord>, roomMap0: map<Coord, nat>, base: nat,
                                      c0: Coord, dir: int, rooms2: seq<Room>, rooms3: seq<Room>, i: nat, d: int)
    requires |pos0| == |rooms0| && base <= |rooms0|
    requires forall c :: c in roomMap0 ==> base <= roomMap0[c] < |pos0| && pos0[roomMap0[c]] == c
    requires forall j :: base <= j < |pos0| ==> pos0[j] in roomMap0 && roomMap0[pos0[j]] == j
    requires FloorLinks(rooms0, pos0, roomMap0, base)
    requires c0 in roomMap0 && IsDirection(dir) && Offset(c0, dir) !in roomMap0
    requires rooms2 == Linked(rooms0 + [NewRoom], roomMap0[c0], |rooms0|, dir)
    requires StitchedFrom(rooms2, rooms3, |rooms0|, Offset(c0, dir), roomMap0[Offset(c0, dir) := |rooms0|])
    requires base <= i <= |rooms0| && IsDirection(d)
    ensures Link(rooms3[i], d) == Lookup(roomMap0[Offset(c0, dir) := |rooms0|], Offset((pos0 + [Offset(c0, dir)])[i], d))
  {
    var newC := Offset(c0, dir);
    var roomMap1 := roomMap0[newC := |rooms0|];
    if i == |rooms0| {
      NewRoomSlot(rooms0, pos0, roomMap0, base, c0, dir, rooms2, rooms3, i, d);
    } else if Offset(newC, Opposite(d)) in roomMap1 && roomMap1[Offset(newC, Opposite(d))] == i {
      StitchedSlot(rooms0, pos0, roomMap0, base, c0, dir, rooms2, rooms3, i, d);
    } else {
      KeptSlot(rooms0, pos0, roomMap0, base, c0, dir, rooms2, rooms3, i, d);
    }
  }

  /** A link of the new room: stitched to a mapped neighbour, or still absent. */
  lemma {:induction false} NewRoomSlot(rooms0: seq<Room>, pos0: seq<Coord>, roomMap0: map<Coord, nat>, base: nat,
                                      c0: Coord, dir: int, rooms2: seq<Room>, rooms3: seq<Room>, i: nat, d: int)
    requires |pos0| == |rooms0| && base <= |rooms0|
    requires forall c :: c in roomMap0 ==> base <= roomMap0[c] < |pos0| && pos0[roomMap0[c]] == c
    requires forall j :: base <= j < |pos0| ==> pos0[j] in roomMap0 && roomMap0[pos0[j]] == j
    requires FloorLinks(rooms0, pos0, roomMap0, base)
    requires c0 in roomMap0 && IsDirection(dir) && Offset(c0, dir) !in roomMap0
    requires rooms2 == Linked(rooms0 + [NewRoom], roomMap0[c0], |rooms0|, dir)
    requires StitchedFrom(rooms2, rooms3, |rooms0|, Offset(c0, dir), roomMap0[Offset(c0, dir) := |rooms0|])
    requires i == |rooms0| && IsDirection(d)
    ensures Link(rooms3[i], d) == Lookup(roomMap0[Offset(c0, dir) := |rooms0|], Offset((pos0 + [Offset(c0, dir)])[i], d))
  {
    var n := |rooms0|;
    var newC := Offset(c0, dir);
    var roomMap1 := roomMap0[newC := n];
    OffsetOpposite(c0, dir);
    OffsetOpposite(newC, d);
    if Offset(newC, d) !in roomMap1 {
      assert d != Opposite(dir);
      assert Link(rooms3[i], d) == Link(rooms2[n], d) == Link((rooms0 + [NewRoom])[n], d);
    }
  }

  /** A link of an older room that was stitched back to the new room. */
  lemma {:induction false} StitchedSlot(rooms0: seq<Room>, pos0: seq<Coord>, roomMap0: map<Coord, nat>, base: nat,
                                      c0: Coord, dir: int, rooms2: seq<Room>, rooms3: seq<Room>, i: nat, d: int)
    requires |pos0| == |rooms0| && base <= |rooms0|
    requires forall c :: c in roomMap0 ==> base <= roomMap0[c] < |pos0| && pos0[roomMap0[c]] == c
    requires forall j :: base <= j < |pos0| ==> pos0[j] in roomMap0 && roomMap0[pos0[j]] == j
    requires FloorLinks(rooms0, pos0, roomMap0, base)
    requires c0 in roomMap0 && IsDirection(dir) && Offset(c0, dir) !in roomMap0
    requires rooms2 == Linked(rooms0 + [NewRoom], roomMap0[c0], |rooms0|, dir)
    requires StitchedFrom(rooms2, rooms3, |rooms0|, Offset(c0, dir), roomMap0[Offset(c0, dir) := |rooms0|])
    requires base <= i < |rooms0| && IsDirection(d)
    requires Offset(Offset(c0, dir), Opposite(d)) in roomMap0[Offset(c0, dir) := |rooms0|]
    requires roomMap0[Offset(c0, dir) := |rooms0|][Offset(Offset(c0, dir), Opposite(d))] == i
    ensures Link(rooms3[i], d) == Lookup(roomMap0[Offset(c0, dir) := |rooms0|], Offset((pos0 + [Offset(c0, dir)])[i], d))
  {
    var newC := Offset(c0, dir);
    var pos1 := pos0 + [newC];
    OffsetOpposite(newC, d);
    assert pos1[i] == Offset(newC, Opposite(d));
  }

  /** A link of an older room that the step left as it was. */
  lemma {:induction false} KeptSlot(rooms0: seq<Room>, pos0: seq<Coord>, roomMap0: map<Coord, nat>, base: nat,
                                      c0: Coord, dir: int, rooms2: seq<Room>, rooms3: seq<Room>, i: nat, d: int)
    requires |pos0| == |rooms0| && base <= |rooms0|
    requires forall c :: c in roomMap0 ==> base <= roomMap0[c] < |pos0| && pos0[roomMap0[c]] == c
    requires forall j :: base <= j < |pos0| ==> pos0[j] in roomMap0 && roomMap0[pos0[j]] == j
    requires FloorLinks(rooms0, pos0, roomMap0, base)
    requires c0 in roomMap0 && IsDirection(dir) && Offset(c0, dir) !in roomMap0
    requires rooms2 == Linked(rooms0 + [NewRoom], roomMap0[c0], |rooms0|, dir)
    requires StitchedFrom(rooms2, rooms3, |rooms0|, Offset(c0, dir), roomMap0[Offset(c0, dir) := |rooms0|])
    requires base <= i < |rooms0| && IsDirection(d)
    requires !(Offset(Offset(c0, dir), Opposite(d)) in roomMap0[Offset(c0, dir) := |rooms0|]
               && roomMap0[Offset(c0, dir) := |rooms0|][Offset(Offset(c0, dir), Opposite(d))] == i)
    ensures Link(rooms3[i], d) == Lookup(roomMap0[Offset(c0, dir) := |rooms0|], Offset((pos0 + [Offset(c0, dir)])[i], d))
  {
    var n := |rooms0|;
    var existing := roomMap0[c0];
    var newC := Offset(c0, dir);
    var pos1 := pos0 + [newC];
    OffsetOpposite(c0, dir);
    OffsetOpposite(newC, d);
    OffsetOpposite(pos1[i], d);
    assert pos1[i] == pos0[i];
    assert (i, d) != (existing, dir);
    assert Link(rooms3[i], d) == Link(rooms2[i], d) == Link(rooms0[i], d);
    assert Link(rooms0[i], d) == Lookup(roomMap0, Offset(pos0[i], d));
    assert Offset(pos1[i], d) != newC;
  }

  /** A growth step changes no room of an earlier floor. */
  lemma GrowthPrefix(rooms0: seq<Room>, roomMap0: map<Coord, nat>, base: nat, existing: nat, dir: int, newC: Coord,
                     rooms3: seq<Room>)
    requires base <= existing < |rooms0| && IsDirection(dir)
    requires forall c :: c in roomMap0 ==> base <= roomMap0[c] < |rooms0|
    requires rooms3 == Stitch(Linked(rooms0 + [NewRoom], existing, |rooms0|, dir), |rooms0|, newC, roomMap0[newC := |rooms0|])
    ensures rooms3[..base] == rooms0[..base]
  {
    var roomMap1 := roomMap0[newC := |rooms0|];
    forall i | 0 <= i < base
      ensures rooms3[i] == rooms0[i]
    {
      assert i !in roomMap1.Values;
    }
  }

  /** The invariant of the generator's loop over the floor being generated, the rooms from `base` on. */
  ghost predicate Growing(rooms: seq<Room>, pos: seq<Coord>, floor: seq<nat>, base: nat, f: nat,
                          roomMap: map<Coord, nat>, parent: seq<nat>, parentDir: seq<int>)
  {
    |pos| == |rooms| && |floor| == |rooms| && base < |rooms| && pos[base] == (0, 0)
    && IndexesFloor(roomMap, pos, floor, base, f) && FloorLinks(rooms, pos, roomMap, base)
    && Tree(rooms, base, parent, parentDir) && |roomMap| == |rooms| - base
  }

  /** The floor's start room, alone at (0, 0), establishes the loop invariant. */
  lemma GrowingStart(rooms0: seq<Room>, pos0: seq<Coord>, floor0: seq<nat>, f: nat)
    requires |pos0| == |rooms0| && |floor0| == |rooms0|
    ensures Growing(rooms0 + [NewRoom], pos0 + [(0, 0)], floor0 + [f], |rooms0|, f, map[(0, 0) := |rooms0|], [|rooms0|], [0])
  {
    var rooms := rooms0 + [NewRoom];
    var pos := pos0 + [(0, 0)];
    var roomMap := map[(0, 0) := |rooms0|];
    forall i, d | |rooms0| <= i < |rooms| && IsDirection(d)
      ensures Link(rooms[i], d) == Lookup(roomMap, Offset(pos[i], d))
    {
      OffsetInjective((0, 0), d, d);
    }
  }

  /** One iteration of the generator's loop keeps the loop invariant and leaves earlier floors alone. */
  lemma GrowOne(rooms0: seq<Room>, pos0: seq<Coord>, floor0: seq<nat>, base: nat, f: nat, roomMap0: map<Coord, nat>,
                parent: seq<nat>, parentDir: seq<int>, c0: Coord, dir: int, rooms3: seq<Room>)
    requires Growing(rooms0, pos0, floor0, base, f, roomMap0, parent, parentDir)
    requires c0 in roomMap0 && IsDirection(dir) && Link(rooms0[roomMap0[c0]], dir) == None
    requires ValuesBelow(roomMap0[Offset(c0, dir) := |rooms0|], |rooms0| + 1)
    requires rooms3 == Stitch(Linked(rooms0 + [NewRoom], roomMap0[c0], |rooms0|, dir), |rooms0|, Offset(c0, dir),
                              roomMap0[Offset(c0, dir) := |rooms0|])
    ensures Growing(rooms3, pos0 + [Offset(c0, dir)], floor0 + [f], base, f, roomMap0[Offset(c0, dir) := |rooms0|],
                    parent + [roomMap0[c0]], parentDir + [Opposite(dir)])
    ensures rooms3[..base] == rooms0[..base]
  {
    GrowthStep(rooms0, pos0, floor0, roomMap0, base, f, c0, dir, rooms3, parent, parentDir);
    GrowthPrefix(rooms0, roomMap0, base, roomMap0[c0], dir, Offset(c0, dir), rooms3);
  }

  /**
   * When the generator finishes a floor, the whole dungeon is embedded: earlier floors are
   * untouched, and the new floor's links are exactly its lattice adjacencies.
   */
  lemma {:induction false} ExtendEmbedded(rooms0: seq<Room>, pos0: seq<Coord>, floor0: seq<nat>,
                                          rooms: seq<Room>, pos: seq<Coord>, floor: seq<nat>, roomMap: map<Coord, nat>, f: nat)
    requires Embedded(rooms0, pos0, floor0) && forall i :: 0 <= i < |floor0| ==> floor0[i] < f
    requires |pos| == |rooms| && |floor| == |rooms| && |rooms0| <= |rooms|
    requires rooms[..|rooms0|] == rooms0 && pos[..|rooms0|] == pos0 && floor[..|rooms0|] == floor0
    requires IndexesFloor(roomMap, pos, floor, |rooms0|, f) && FloorLinks(rooms, pos, roomMap, |rooms0|)
    ensures Embedded(rooms, pos, floor)
  {
    var base := |rooms0|;
    assert forall i :: 0 <= i < base ==> rooms[i] == rooms0[i] && pos[i] == pos0[i] && floor[i] == floor0[i];
    forall i, d | 0 <= i < |rooms| && IsDirection(d)
      ensures LinkExact(rooms, pos, floor, i, d)
    {
      if i < base {
        assert LinkExact(rooms0, pos0, floor0, i, d);
      }
    }
  }

  /** Every room of the floor can walk back along the tree to the floor's first room. */
  lemma ReachesRoot(rooms: seq<Room>, base: nat, parent: seq<nat>, parentDir: seq<int>, i: nat)
    requires Tree(rooms, base, parent, parentDir) && base <= i < |rooms|
    ensures Reachable(rooms, i, base)
    decreases i
  {
    if i == base {
      ReachableRefl(rooms, i);
    } else {
      var p := parent[i - base];
      assert Link(rooms[i], parentDir[i - base]) == Some(p);
      ReachesRoot(rooms, base, parent, parentDir, p);
      ReachableRefl(rooms, i);
      ReachableStep(rooms, i, i, p);
      ReachableTrans(rooms, i, p, base);
    }
  }

  /** Every room of a generated floor is reachable from every other. */
  lemma FloorConnected(rooms: seq<Room>, pos: seq<Coord>, floor: seq<nat>, base: nat, parent: seq<nat>, parentDir: seq<int>)
    requires Embedded(rooms, pos, floor) && Tree(rooms, base, parent, parentDir)
    ensures forall i, j :: base <= i < |rooms| && base <= j < |rooms| ==> Reachable(rooms, i, j)
  {
    forall i, j | base <= i < |rooms| && base <= j < |rooms|
      ensures Reachable(rooms, i, j)
    {
      ReachesRoot(rooms, base, parent, parentDir, i);
      ReachesRoot(rooms, base, parent, parentDir, j);
      ReachableSymmetric(rooms, pos, floor, j, base);
      ReachableTrans(rooms, i, base, j);
    }
  }
}
