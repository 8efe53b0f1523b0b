/**
 * The `Dungeon` class: the list of every room generated so far, floor generation by random
 * growth on a lattice, and the breadth-first traversal that visits the rooms reachable from a
 * start room. A room pointer is the room's id, its position in `rooms`; a null pointer is `None`.
 */
module Dungeons {
  import opened Wrappers
  import opened Rooms
  import opened DungeonGraph

  /** A sequence of room ids without repetitions. */
  predicate Distinct(s: seq<nat>)
  {
    forall i, j :: 0 <= i < j < |s| ==> s[i] != s[j]
  }

  function Elements(s: seq<nat>): set<nat>
  {
    set x | x in s
  }

  /** The ids below `n`. */
  function Below(n: nat): (r: set<nat>)
    ensures forall x: nat :: x in r <==> x < n
    ensures |r| == n
  {
    if n == 0 then {} else Below(n - 1) + {n - 1}
  }

  lemma {:induction false} DistinctSize(s: seq<nat>)
    requires Distinct(s)
    ensures |Elements(s)| == |s|
  {
    if s != [] {
      var t := s[..|s| - 1];
      assert Distinct(t);
      DistinctSize(t);
      assert Elements(s) == Elements(t) + {s[|s| - 1]};
      assert s[|s| - 1] !in Elements(t);
    }
  }

  /** A list of distinct room ids below `n` holds at most `n` ids. */
  lemma DistinctBound(s: seq<nat>, n: nat)
    requires Distinct(s) && forall k :: 0 <= k < |s| ==> s[k] < n
    ensures |s| <= n
  {
    DistinctSize(s);
    SubsetSize(Elements(s), Below(n));
  }

  lemma SubsetSize(a: set<nat>, b: set<nat>)
    requires a <= b
    ensures |a| <= |b|
  {
    if a != {} {
      var x :| x in a;
      SubsetSize(a - {x}, b - {x});
    }
  }

  lemma AppendKeepsPrefix<T>(s: seq<T>, x: T, n: nat)
    requires n <= |s|
    ensures (s + [x])[..n] == s[..n]
  {
  }

  /** The rooms reachable from `s`. */
  ghost function ReachableSet(rooms: seq<Room>, s: nat): set<nat>
  {
    set r: nat | r < |rooms| && Reachable(rooms, s, r)
  }

  // ---------------------------------------------------------------------------------------------
  // The breadth-first traversal's state

  function Shift(p0: Coord, c: Coord): Coord
  {
    (p0.0 + c.0, p0.1 + c.1)
  }

  function Unshift(p: Coord, p0: Coord): Coord
  {
    (p.0 - p0.0, p.1 - p0.1)
  }

  /** `enq` is the visited rooms followed by the queued ones. */
  predicate Shape(order: seq<nat>, q: seq<(nat, Coord)>, enq: seq<nat>)
  {
    |enq| == |order| + |q|
    && (forall k :: 0 <= k < |order| ==> enq[k] == order[k])
    && (forall k :: 0 <= k < |q| ==> enq[|order| + k] == q[k].0)
  }

  /** Every visited coordinate holds its queued room, on the start's floor at that offset from the start. */
  ghost predicate VisitedPlaced(rooms: seq<Room>, pos: seq<Coord>, floor: seq<nat>, s: nat,
                                q: seq<(nat, Coord)>, visited: map<Coord, nat>, enq: seq<nat>)
    requires |pos| == |rooms| && |floor| == |rooms| && s < |rooms|
  {
    (forall k :: 0 <= k < |q| ==> q[k].1 in visited && visited[q[k].1] == q[k].0)
    && (forall c :: c in visited ==>
          visited[c] < |rooms| && floor[visited[c]] == floor[s] && pos[visited[c]] == Shift(pos[s], c) && visited[c] in enq)
  }

  /** Every room ever queued was queued once, under its own coordinate, and is reachable from the start. */
  ghost predicate QueuedOnce(rooms: seq<Room>, pos: seq<Coord>, s: nat, visited: map<Coord, nat>, enq: seq<nat>)
    requires |pos| == |rooms| && s < |rooms|
  {
    Distinct(enq)
    && (forall k :: 0 <= k < |enq| ==>
          enq[k] < |rooms| && Unshift(pos[enq[k]], pos[s]) in visited && visited[Unshift(pos[enq[k]], pos[s])] == enq[k]
          && Reachable(rooms, s, enq[k]))
    && |enq| > 0 && enq[0] == s
  }

  /** Every neighbour of a visited room is queued, except in the directions the last visited room has yet to look at. */
  ghost predicate Closed(rooms: seq<Room>, order: seq<nat>, enq: seq<nat>, done: set<int>)
  {
    forall k, d ::
      (0 <= k < |order| && IsDirection(d) && (k < |order| - 1 || d in done) && order[k] < |rooms| && Link(rooms[order[k]], d).Some?)
      ==> Link(rooms[order[k]], d).value in enq
  }

  /**
   * The traversal from `s` in progress: `order` holds the rooms visited so far, `q` the queue of
   * rooms with their coordinates relative to `s`, `visited` the coordinates seen, and `enq` every
   * room ever queued.
   */
  ghost predicate Frontier(rooms: seq<Room>, pos: seq<Coord>, floor: seq<nat>, s: nat, order: seq<nat>,
                           q: seq<(nat, Coord)>, visited: map<Coord, nat>, enq: seq<nat>, done: set<int>)
    requires |pos| == |rooms| && |floor| == |rooms| && s < |rooms|
  {
    Shape(order, q, enq) && VisitedPlaced(rooms, pos, floor, s, q, visited, enq)
    && QueuedOnce(rooms, pos, s, visited, enq) && Closed(rooms, order, enq, done)
  }

  lemma FrontierStart(rooms: seq<Room>, pos: seq<Coord>, floor: seq<nat>, s: nat)
    requires Embedded(rooms, pos, floor) && s < |rooms|
    ensures Frontier(rooms, pos, floor, s, [], [(s, (0, 0))], map[(0, 0) := s], [s], {})
  {
    ReachableRefl(rooms, s);
    assert Unshift(pos[s], pos[s]) == (0, 0);
  }

  /** Taking the front of the queue: it becomes the last visited room, with no direction looked at yet. */
  lemma FrontierPop(rooms: seq<Room>, pos: seq<Coord>, floor: seq<nat>, s: nat, order: seq<nat>,
                    q: seq<(nat, Coord)>, visited: map<Coord, nat>, enq: seq<nat>)
    requires Embedded(rooms, pos, floor) && s < |rooms| && |q| > 0
    requires Frontier(rooms, pos, floor, s, order, q, visited, enq, {0, 1, 2, 3})
    ensures Frontier(rooms, pos, floor, s, order + [q[0].0], q[1..], visited, enq, {})
    ensures AtCurrent(rooms, pos, floor, s, order + [q[0].0], q[0].1.0, q[0].1.1)
    ensures |order| < |rooms|
  {
    var order' := order + [q[0].0];
    PopShape(order, q, enq);
    PopPlaced(rooms, pos, floor, s, q, visited, enq);
    PopClosed(rooms, order, enq, q[0].0);
    assert enq[|order|] == q[0].0;
    DistinctBound(enq, |rooms|);
  }

  lemma PopShape(order: seq<nat>, q: seq<(nat, Coord)>, enq: seq<nat>)
    requires Shape(order, q, enq) && |q| > 0
    ensures Shape(order + [q[0].0], q[1..], enq)
  {
    assert enq[|order|] == q[0].0;
  }

  lemma PopPlaced(rooms: seq<Room>, pos: seq<Coord>, floor: seq<nat>, s: nat,
                  q: seq<(nat, Coord)>, visited: map<Coord, nat>, enq: seq<nat>)
    requires |pos| == |rooms| && |floor| == |rooms| && s < |rooms|
    requires VisitedPlaced(rooms, pos, floor, s, q, visited, enq) && |q| > 0
    ensures VisitedPlaced(rooms, pos, floor, s, q[1..], visited, enq)
  {
    forall k | 0 <= k < |q| - 1
      ensures q[1..][k].1 in visited && visited[q[1..][k].1] == q[1..][k].0
    {
      assert q[1..][k] == q[k + 1];
    }
  }

  lemma PopClosed(rooms: seq<Room>, order: seq<nat>, enq: seq<nat>, cur: nat)
    requires Closed(rooms, order, enq, {0, 1, 2, 3})
    ensures Closed(rooms, order + [cur], enq, {})
  {
    var order' := order + [cur];
    forall k, d | 0 <= k < |order'| && IsDirection(d) && k < |order'| - 1 && order'[k] < |rooms| && Link(rooms[order'[k]], d).Some?
      ensures Link(rooms[order'[k]], d).value in enq
    {
      assert d in {0, 1, 2, 3} && order'[k] == order[k];
    }
  }

  /** The last visited room sits on the start's floor, at its relative coordinate (x, y). */
  ghost predicate AtCurrent(rooms: seq<Room>, pos: seq<Coord>, floor: seq<nat>, s: nat, order: seq<nat>, x: int, y: int)
    requires |pos| == |rooms| && |floor| == |rooms| && s < |rooms|
  {
    |order| > 0 && order[|order| - 1] < |rooms|
    && pos[order[|order| - 1]] == Shift(pos[s], (x, y)) && floor[order[|order| - 1]] == floor[s]
  }

  /**
   * Looking at direction `d` of the last visited room at relative coordinate (x, y), when the
   * neighbour's coordinate is already visited (or there is no neighbour): the neighbour is already
   * queued, because on one floor one coordinate holds one room.
   */
  lemma FrontierSkip(rooms: seq<Room>, pos: seq<Coord>, floor: seq<nat>, s: nat, order: seq<nat>,
                     q: seq<(nat, Coord)>, visited: map<Coord, nat>, enq: seq<nat>, done: set<int>, x: int, y: int, d: int)
    requires Embedded(rooms, pos, floor) && s < |rooms| && IsDirection(d)
    requires Frontier(rooms, pos, floor, s, order, q, visited, enq, done) && AtCurrent(rooms, pos, floor, s, order, x, y)
    requires Link(rooms[order[|order| - 1]], d).Some? ==> Offset((x, y), d) in visited
    ensures Frontier(rooms, pos, floor, s, order, q, visited, enq, done + {d})
  {
    var cur := order[|order| - 1];
    if Link(rooms[cur], d).Some? {
      NeighbourQueued(rooms, pos, floor, s, q, visited, enq, cur, x, y, d);
    }
    SkipClosed(rooms, order, enq, done, d);
  }

  /** The neighbour of a room placed at (x, y) whose coordinate is visited is the room visited there, so it is queued. */
  lemma NeighbourQueued(rooms: seq<Room>, pos: seq<Coord>, floor: seq<nat>, s: nat, q: seq<(nat, Coord)>,
                        visited: map<Coord, nat>, enq: seq<nat>, cur: nat, x: int, y: int, d: int)
    requires Embedded(rooms, pos, floor) && s < |rooms| && cur < |rooms| && IsDirection(d)
    requires VisitedPlaced(rooms, pos, floor, s, q, visited, enq)
    requires pos[cur] == Shift(pos[s], (x, y)) && floor[cur] == floor[s]
    requires Link(rooms[cur], d).Some? && Offset((x, y), d) in visited
    ensures Link(rooms[cur], d).value in enq
  {
    var nb := Link(rooms[cur], d).value;
    assert LinkExact(rooms, pos, floor, cur, d);
    var z := visited[Offset((x, y), d)];
    assert floor[z] == floor[nb] && pos[z] == pos[nb];
  }

  /** Once the neighbour in direction `d` of the last visited room is queued (or there is none), that direction is closed. */
  lemma SkipClosed(rooms: seq<Room>, order: seq<nat>, enq: seq<nat>, done: set<int>, d: int)
    requires Closed(rooms, order, enq, done) && |order| > 0 && order[|order| - 1] < |rooms| && IsDirection(d)
    requires Link(rooms[order[|order| - 1]], d).Some? ==> Link(rooms[order[|order| - 1]], d).value in enq
    ensures Closed(rooms, order, enq, done + {d})
  {
    forall k, e | 0 <= k < |order| && IsDirection(e) && (k < |order| - 1 || e in done + {d}) && order[k] < |rooms|
      && Link(rooms[order[k]], e).Some?
      ensures Link(rooms[order[k]], e).value in enq
    {
      if e != d || k < |order| - 1 {
        assert Link(rooms[order[k]], e).value in enq;
      }
    }
  }

  /**
   * Looking at direction `d` of the last visited room at relative coordinate (x, y), when the
   * neighbour's coordinate is not yet visited: queuing the neighbour under that coordinate keeps
   * the traversal's invariant, and the neighbour was not queued before.
   */
  lemma FrontierPush(rooms: seq<Room>, pos: seq<Coord>, floor: seq<nat>, s: nat, order: seq<nat>,
                     q: seq<(nat, Coord)>, visited: map<Coord, nat>, enq: seq<nat>, done: set<int>, x: int, y: int, d: int)
    requires Embedded(rooms, pos, floor) && s < |rooms| && IsDirection(d)
    requires Frontier(rooms, pos, floor, s, order, q, visited, enq, done) && AtCurrent(rooms, pos, floor, s, order, x, y)
    requires Link(rooms[order[|order| - 1]], d).Some? && Offset((x, y), d) !in visited
    ensures var nb := Link(rooms[order[|order| - 1]], d).value; var c' := Offset((x, y), d);
      Frontier(rooms, pos, floor, s, order, q + [(nb, c')], visited[c' := nb], enq + [nb], done + {d})
  {
    var cur := order[|order| - 1];
    var nb := Link(rooms[cur], d).value;
    var c' := Offset((x, y), d);
    assert LinkExact(rooms, pos, floor, cur, d);
    assert pos[nb] == Shift(pos[s], c') && Unshift(pos[nb], pos[s]) == c';
    CurrentReachable(rooms, pos, s, order, q, visited, enq);
    ReachableStep(rooms, s, cur, nb);
    PushPlaced(rooms, pos, floor, s, q, visited, enq, nb, c');
    PushQueued(rooms, pos, s, visited, enq, nb, c');
    PushClosed(rooms, order, enq, done, d, nb);
    PushShape(order, q, enq, nb, c');
  }

  /** The last visited room was queued, so it is reachable from the start. */
  lemma CurrentReachable(rooms: seq<Room>, pos: seq<Coord>, s: nat, order: seq<nat>,
                         q: seq<(nat, Coord)>, visited: map<Coord, nat>, enq: seq<nat>)
    requires |pos| == |rooms| && s < |rooms| && |order| > 0
    requires Shape(order, q, enq) && QueuedOnce(rooms, pos, s, visited, enq)
    ensures Reachable(rooms, s, order[|order| - 1])
  {
    assert enq[|order| - 1] == order[|order| - 1];
  }

  lemma PushShape(order: seq<nat>, q: seq<(nat, Coord)>, enq: seq<nat>, nb: nat, c': Coord)
    requires Shape(order, q, enq)
    ensures Shape(order, q + [(nb, c')], enq + [nb])
  {
  }

  /** Queuing the neighbour in direction `d` of the last visited room closes that direction. */
  lemma PushClosed(rooms: seq<Room>, order: seq<nat>, enq: seq<nat>, done: set<int>, d: int, nb: nat)
    requires Closed(rooms, order, enq, done) && |order| > 0 && order[|order| - 1] < |rooms| && IsDirection(d)
    requires Link(rooms[order[|order| - 1]], d) == Some(nb)
    ensures Closed(rooms, order, enq + [nb], done + {d})
  {
    var enq' := enq + [nb];
    forall k, e | 0 <= k < |order| && IsDirection(e) && (k < |order| - 1 || e in done + {d}) && order[k] < |rooms|
      && Link(rooms[order[k]], e).Some?
      ensures Link(rooms[order[k]], e).value in enq'
    {
      if e != d || k < |order| - 1 {
        assert Link(rooms[order[k]], e).value in enq;
      }
    }
  }

  /** Queuing a room at an unvisited coordinate, where it sits, keeps the visited coordinates placed. */
  lemma PushPlaced(rooms: seq<Room>, pos: seq<Coord>, floor: seq<nat>, s: nat,
                   q: seq<(nat, Coord)>, visited: map<Coord, nat>, enq: seq<nat>, nb: nat, c': Coord)
    requires |pos| == |rooms| && |floor| == |rooms| && s < |rooms|
    requires VisitedPlaced(rooms, pos, floor, s, q, visited, enq) && c' !in visited
    requires nb < |rooms| && floor[nb] == floor[s] && pos[nb] == Shift(pos[s], c')
    ensures VisitedPlaced(rooms, pos, floor, s, q + [(nb, c')], visited[c' := nb], enq + [nb])
  {
    var q', visited' := q + [(nb, c')], visited[c' := nb];
    forall k | 0 <= k < |q'|
      ensures q'[k].1 in visited' && visited'[q'[k].1] == q'[k].0
    {
      if k < |q| {
        assert q'[k] == q[k] && q[k].1 in visited;
      }
    }
  }

  /** Queuing a reachable room at an unvisited coordinate, where it sits, keeps every room queued once. */
  lemma PushQueued(rooms: seq<Room>, pos: seq<Coord>, s: nat, visited: map<Coord, nat>, enq: seq<nat>, nb: nat, c': Coord)
    requires |pos| == |rooms| && s < |rooms|
    requires QueuedOnce(rooms, pos, s, visited, enq) && c' !in visited
    requires nb < |rooms| && Unshift(pos[nb], pos[s]) == c' && Reachable(rooms, s, nb)
    ensures nb !in enq
    ensures QueuedOnce(rooms, pos, s, visited[c' := nb], enq + [nb])
  {
    var visited', enq' := visited[c' := nb], enq + [nb];
    forall k | 0 <= k < |enq'|
      ensures enq'[k] < |rooms| && Unshift(pos[enq'[k]], pos[s]) in visited'
        && visited'[Unshift(pos[enq'[k]], pos[s])] == enq'[k] && Reachable(rooms, s, enq'[k])
    {
      if k < |enq| {
        assert enq'[k] == enq[k] && Unshift(pos[enq[k]], pos[s]) in visited;
      }
    }
  }

  function NextQueue(q: seq<(nat, Coord)>, visited: map<Coord, nat>, link: Option<nat>, c: Coord): seq<(nat, Coord)>
  {
    if link.Some? && c !in visited then q + [(link.value, c)] else q
  }

  function NextVisited(visited: map<Coord, nat>, link: Option<nat>, c: Coord): map<Coord, nat>
  {
    if link.Some? && c !in visited then visited[c := link.value] else visited
  }

  ghost function NextEnq(enq: seq<nat>, visited: map<Coord, nat>, link: Option<nat>, c: Coord): seq<nat>
  {
    if link.Some? && c !in visited then enq + [link.value] else enq
  }

  /** One of the traversal's four neighbour checks, in either outcome, keeps its invariant and closes direction `d`. */
  lemma FrontierLook(rooms: seq<Room>, pos: seq<Coord>, floor: seq<nat>, s: nat, order: seq<nat>,
                     q: seq<(nat, Coord)>, visited: map<Coord, nat>, enq: seq<nat>, done: set<int>, x: int, y: int, d: int,
                     link: Option<nat>, c: Coord, done': set<int>)
    requires Embedded(rooms, pos, floor) && s < |rooms| && IsDirection(d)
    requires Frontier(rooms, pos, floor, s, order, q, visited, enq, done) && AtCurrent(rooms, pos, floor, s, order, x, y)
    requires link == Link(rooms[order[|order| - 1]], d) && c == Offset((x, y), d) && done' == done + {d}
    ensures Frontier(rooms, pos, floor, s, order, NextQueue(q, visited, link, c), NextVisited(visited, link, c),
                     NextEnq(enq, visited, link, c), done')
  {
    if link.Some? && c !in visited {
      FrontierPush(rooms, pos, floor, s, order, q, visited, enq, done, x, y, d);
    } else {
      FrontierSkip(rooms, pos, floor, s, order, q, visited, enq, done, x, y, d);
    }
  }

  /** When the queue is empty, the visited rooms are exactly the rooms reachable from `s`. */
  lemma FrontierDone(rooms: seq<Room>, pos: seq<Coord>, floor: seq<nat>, s: nat, order: seq<nat>,
                     visited: map<Coord, nat>, enq: seq<nat>)
    requires Embedded(rooms, pos, floor) && s < |rooms|
    requires Frontier(rooms, pos, floor, s, order, [], visited, enq, {0, 1, 2, 3})
    ensures Distinct(order) && |order| > 0 && order[0] == s
    ensures forall r: nat :: r in order <==> r < |rooms| && Reachable(rooms, s, r)
  {
    assert enq == order;
    var reached := Elements(order);
    forall x | x in reached && x < |rooms|
      ensures Neighbours(rooms[x]) <= reached
    {
      var k :| 0 <= k < |order| && order[k] == x;
      forall j | j in Neighbours(rooms[x])
        ensures j in reached
      {
        var d :| IsDirection(d) && Link(rooms[x], d) == Some(j);
        assert d in {0, 1, 2, 3};
      }
    }
    forall r: nat | r < |rooms| && Reachable(rooms, s, r)
      ensures r in order
    {
      ClosedHoldsReachable(rooms, reached, s, r);
    }
  }

  // ---------------------------------------------------------------------------------------------

  /**
   * One of the traversal's four neighbour checks of the last visited room `cur`, at relative
   * coordinate (x, y), in direction `d`: the room linked that way is queued under its coordinate
   * unless there is none or the coordinate is already visited. Either way the traversal's
   * invariant holds with direction `d` closed.
   */
  method QueueIfUnvisited(rooms: seq<Room>, ghost pos: seq<Coord>, ghost floor: seq<nat>, s: nat, cur: nat, x: int, y: int, d: int,
                          q: seq<(nat, Coord)>, visited: map<Coord, nat>,
                          ghost order: seq<nat>, ghost enq: seq<nat>, ghost done: set<int>, ghost done': set<int>)
    returns (q': seq<(nat, Coord)>, visited': map<Coord, nat>, ghost enq': seq<nat>)
    requires Embedded(rooms, pos, floor) && s < |rooms| && IsDirection(d)
    requires Frontier(rooms, pos, floor, s, order, q, visited, enq, done) && AtCurrent(rooms, pos, floor, s, order, x, y)
    requires cur == order[|order| - 1] && done' == done + {d}
    ensures var link, c := Link(rooms[cur], d), Offset((x, y), d);
      q' == NextQueue(q, visited, link, c) && visited' == NextVisited(visited, link, c)
    ensures Frontier(rooms, pos, floor, s, order, q', visited', enq', done')
  {
    var link, c := Link(rooms[cur], d), Offset((x, y), d);
    FrontierLook(rooms, pos, floor, s, order, q, visited, enq, done, x, y, d, link, c, done');
    q', visited', enq' := q, visited, enq;
    if link.Some? && c !in visited {
      q' := q' + [(link.value, c)];
      visited' := visited'[c := link.value];
      enq' := enq' + [link.value];
    }
  }

  /** The traversal's first two neighbour checks of the last visited room `cur`: north, then south. */
  method QueueNorthSouth(rooms: seq<Room>, ghost pos: seq<Coord>, ghost floor: seq<nat>, s: nat, cur: nat, x: int, y: int,
                         q: seq<(nat, Coord)>, visited: map<Coord, nat>, ghost order: seq<nat>, ghost enq: seq<nat>)
    returns (q': seq<(nat, Coord)>, visited': map<Coord, nat>, ghost enq': seq<nat>)
    requires Embedded(rooms, pos, floor) && s < |rooms|
    requires Frontier(rooms, pos, floor, s, order, q, visited, enq, {}) && AtCurrent(rooms, pos, floor, s, order, x, y)
    requires cur == order[|order| - 1]
    ensures var l1, c1, l2, c2 := Link(rooms[cur], 0), Offset((x, y), 0), Link(rooms[cur], 1), Offset((x, y), 1);
      var q1, v1 := NextQueue(q, visited, l1, c1), NextVisited(visited, l1, c1);
      q' == NextQueue(q1, v1, l2, c2) && visited' == NextVisited(v1, l2, c2)
    ensures Frontier(rooms, pos, floor, s, order, q', visited', enq', {0, 1})
  {
    var q1, v1, e1 := QueueIfUnvisited(rooms, pos, floor, s, cur, x, y, 0, q, visited, order, enq, {}, {0});
    q', visited', enq' := QueueIfUnvisited(rooms, pos, floor, s, cur, x, y, 1, q1, v1, order, e1, {0}, {0, 1});
  }

  /** The traversal's last two neighbour checks of the last visited room `cur`: east, then west. */
  method QueueEastWest(rooms: seq<Room>, ghost pos: seq<Coord>, ghost floor: seq<nat>, s: nat, cur: nat, x: int, y: int,
                       q: seq<(nat, Coord)>, visited: map<Coord, nat>, ghost order: seq<nat>, ghost enq: seq<nat>)
    returns (q': seq<(nat, Coord)>, visited': map<Coord, nat>, ghost enq': seq<nat>)
    requires Embedded(rooms, pos, floor) && s < |rooms|
    requires Frontier(rooms, pos, floor, s, order, q, visited, enq, {0, 1}) && AtCurrent(rooms, pos, floor, s, order, x, y)
    requires cur == order[|order| - 1]
    ensures var l1, c1, l2, c2 := Link(rooms[cur], 3), Offset((x, y), 3), Link(rooms[cur], 2), Offset((x, y), 2);
      var q1, v1 := NextQueue(q, visited, l1, c1), NextVisited(visited, l1, c1);
      q' == NextQueue(q1, v1, l2, c2) && visited' == NextVisited(v1, l2, c2)
    ensures Frontier(rooms, pos, floor, s, order, q', visited', enq', {0, 1, 2, 3})
  {
    var q1, v1, e1 := QueueIfUnvisited(rooms, pos, floor, s, cur, x, y, 3, q, visited, order, enq, {0, 1}, {0, 1, 3});
    q', visited', enq' := QueueIfUnvisited(rooms, pos, floor, s, cur, x, y, 2, q1, v1, order, e1, {0, 1, 3}, {0, 1, 2, 3});
  }

  /**
   * A finished floor: the dungeon is embedded, every room lies on a floor below the new count, the
   * new rooms lie on floor `f`, and every new room is reachable from every other.
   */
  lemma FloorFinished(rooms0: seq<Room>, pos0: seq<Coord>, floor0: seq<nat>, rooms: seq<Room>, pos: seq<Coord>,
                      floor: seq<nat>, roomMap: map<Coord, nat>, f: nat, parent: seq<nat>, parentDir: seq<int>)
    requires Embedded(rooms0, pos0, floor0) && forall i :: 0 <= i < |floor0| ==> floor0[i] < f
    requires Growing(rooms, pos, floor, |rooms0|, f, roomMap, parent, parentDir)
    requires rooms[..|rooms0|] == rooms0 && pos[..|rooms0|] == pos0 && floor[..|rooms0|] == floor0
    ensures Embedded(rooms, pos, floor) && forall i :: 0 <= i < |floor| ==> floor[i] < f + 1
    ensures forall i :: |rooms0| <= i < |rooms| ==> floor[i] == f
    ensures forall i, j :: |rooms0| <= i < |rooms| && |rooms0| <= j < |rooms| ==> Reachable(rooms, i, j)
  {
    ExtendEmbedded(rooms0, pos0, floor0, rooms, pos, floor, roomMap, f);
    FloorConnected(rooms, pos, floor, |rooms0|, parent, parentDir);
    forall i | 0 <= i < |floor|
      ensures floor[i] < f + 1
    {
      if i < |rooms0| {
        assert floor[i] == floor0[i];
      }
    }
  }

  class Dungeon {
    /** Every room generated so far, on every floor, in creation order. */
    var rooms: seq<Room>
    /** Where each room sits: its coordinate on its floor, and its floor's number. */
    ghost var pos: seq<Coord>
    ghost var floor: seq<nat>
    ghost var floorCount: nat

    ghost predicate Valid()
      reads this
    {
      Embedded(rooms, pos, floor) && forall i :: 0 <= i < |floor| ==> floor[i] < floorCount
    }

    /** A dungeon without rooms; the random generator is not modelled. */
    constructor()
      ensures Valid() && rooms == [] && floorCount == 0
    {
      rooms := [];
      pos := [];
      floor := [];
      floorCount := 0;
    }

    /** `Dungeon::generateRoom`: appends a room without links and returns its id. */
    method GenerateRoom() returns (newRoom: nat)
      modifies this`rooms
      ensures rooms == old(rooms) + [NewRoom] && newRoom == |old(rooms)|
    {
      newRoom := |rooms|;
      rooms := rooms + [NewRoom];
    }

    /** `Dungeon::linkRooms`: a two-way link in `direction` (0 N, 1 S, 2 W, 3 E); any other direction does nothing. */
    method LinkRooms(room1: nat, room2: nat, direction: int)
      requires room1 < |rooms| && room2 < |rooms|
      modifies this`rooms
      ensures rooms == Linked(old(rooms), room1, room2, direction)
    {
      if direction == 0 {
        rooms := rooms[room1 := rooms[room1].(north := Some(room2))];
        rooms := rooms[room2 := rooms[room2].(south := Some(room1))];
      } else if direction == 1 {
        rooms := rooms[room1 := rooms[room1].(south := Some(room2))];
        rooms := rooms[room2 := rooms[room2].(north := Some(room1))];
      } else if direction == 2 {
        rooms := rooms[room1 := rooms[room1].(west := Some(room2))];
        rooms := rooms[room2 := rooms[room2].(east := Some(room1))];
      } else if direction == 3 {
        rooms := rooms[room1 := rooms[room1].(east := Some(room2))];
        rooms := rooms[room2 := rooms[room2].(west := Some(room1))];
      }
    }

    /**
     * `Dungeon::checkAndLink`: links the new room at (x, y) to whichever of its four lattice
     * neighbours the map holds. When the map is one-to-one and holds the new room at (x, y), the new
     * room then links to exactly its mapped neighbours, each links back, and nothing else changes.
     */
    method CheckAndLink(newRoom: nat, x: int, y: int, roomMap: map<Coord, nat>)
      requires newRoom < |rooms| && ValuesBelow(roomMap, |rooms|)
      modifies this`rooms
      ensures rooms == Stitch(old(rooms), newRoom, (x, y), roomMap)
      ensures Injective(roomMap) && (x, y) in roomMap && roomMap[(x, y)] == newRoom ==>
        StitchedFrom(old(rooms), rooms, newRoom, (x, y), roomMap)
    {
      if Injective(roomMap) && (x, y) in roomMap && roomMap[(x, y)] == newRoom {
        StitchSlots(rooms, newRoom, (x, y), roomMap);
      }
      assert Offset((x, y), 0) == (x, y + 1) && Offset((x, y), 1) == (x, y - 1);
      assert Offset((x, y), 2) == (x - 1, y) && Offset((x, y), 3) == (x + 1, y);
      if (x, y + 1) in roomMap {
        LinkRooms(newRoom, roomMap[(x, y + 1)], 0);
      }
      assert rooms == LinkIfPresent(old(rooms), newRoom, (x, y), roomMap, 0);
      ghost var r0 := rooms;
      if (x, y - 1) in roomMap {
        LinkRooms(newRoom, roomMap[(x, y - 1)], 1);
      }
      assert rooms == LinkIfPresent(r0, newRoom, (x, y), roomMap, 1);
      ghost var r1 := rooms;
      if (x - 1, y) in roomMap {
        LinkRooms(newRoom, roomMap[(x - 1, y)], 2);
      }
      assert rooms == LinkIfPresent(r1, newRoom, (x, y), roomMap, 2);
      ghost var r2 := rooms;
      if (x + 1, y) in roomMap {
        LinkRooms(newRoom, roomMap[(x + 1, y)], 3);
      }
      assert rooms == LinkIfPresent(r2, newRoom, (x, y), roomMap, 3);
    }

    /**
     * `Dungeon::generateFloor`: grows a new floor of `numRooms` rooms from a start room at (0, 0),
     * each new room attached at a free side of a room already on the floor and linked to every
     * neighbour already there, and returns a room drawn from the whole room list. A non-positive
     * count creates nothing and returns null.
     */
    method GenerateFloor(numRooms: int) returns (entry: Option<nat>)
      requires Valid()
      modifies this
      ensures Valid()
      ensures numRooms <= 0 ==>
        entry == None && rooms == old(rooms) && pos == old(pos) && floor == old(floor) && floorCount == old(floorCount)
      ensures numRooms > 0 ==>
        |rooms| == old(|rooms|) + numRooms && rooms[..old(|rooms|)] == old(rooms)
        && floorCount == old(floorCount) + 1
        && (forall i :: old(|rooms|) <= i < |rooms| ==> floor[i] == old(floorCount))
        && pos[old(|rooms|)] == (0, 0)
        && (forall i, j :: old(|rooms|) <= i < |rooms| && old(|rooms|) <= j < |rooms| ==> Reachable(rooms, i, j))
        && entry.Some? && entry.value < |rooms|
    {
      if numRooms <= 0 {
        return None;
      }
      var base := |rooms|;
      ghost var f := floorCount;
      ghost var rooms0, pos0, floor0 := rooms, pos, floor;
      floorCount := floorCount + 1;
      var startRoom := GenerateRoom();
      pos := pos + [(0, 0)];
      floor := floor + [f];
      var roomMap: map<Coord, nat> := map[(0, 0) := startRoom];
      ghost var parent: seq<nat> := [startRoom];
      ghost var parentDir: seq<int> := [0];
      GrowingStart(rooms0, pos0, floor0, f);
      var i := 1;
      while i < numRooms
        invariant 1 <= i <= numRooms && |rooms| == base + i && floorCount == f + 1
        invariant Growing(rooms, pos, floor, base, f, roomMap, parent, parentDir)
        invariant rooms[..base] == rooms0 && pos[..base] == pos0 && floor[..base] == floor0
      {
        roomMap, parent, parentDir := AttachRoom(base, roomMap, f, parent, parentDir);
        i := i + 1;
      }
      FloorFinished(rooms0, pos0, floor0, rooms, pos, floor, roomMap, f, parent, parentDir);
      var k :| 0 <= k < |rooms|;
      entry := Some(k);
    }

    /**
     * One iteration of `Dungeon::generateFloor`'s loop: picks a room of the floor with a free side,
     * creates a room there, links the two, and links the new room to its other mapped neighbours.
     */
    method AttachRoom(base: nat, roomMap: map<Coord, nat>, ghost f: nat, ghost parent: seq<nat>, ghost parentDir: seq<int>)
      returns (roomMap': map<Coord, nat>, ghost parent': seq<nat>, ghost parentDir': seq<int>)
      requires Growing(rooms, pos, floor, base, f, roomMap, parent, parentDir)
      modifies this`rooms, this`pos, this`floor
      ensures Growing(rooms, pos, floor, base, f, roomMap', parent', parentDir')
      ensures |rooms| == old(|rooms|) + 1
      ensures rooms[..base] == old(rooms)[..base] && pos[..base] == old(pos)[..base] && floor[..base] == old(floor)[..base]
    {
      // The source draws a random room of the floor and a random direction until that side is
      // free; any free pair can be drawn, and one always exists.
      ghost var free := FreeSlotExists(rooms, pos, floor, roomMap, base, f);
      ghost var fx, fy := free.0, free.1;
      assert (fx, fy) in roomMap && 0 <= 3 < 4 && Link(rooms[roomMap[(fx, fy)]], 3) == None;
      assert exists x, y, direction :: (x, y) in roomMap && 0 <= direction < 4 && Link(rooms[roomMap[(x, y)]], direction) == None;
      var x, y, direction :| (x, y) in roomMap && 0 <= direction < 4 && Link(rooms[roomMap[(x, y)]], direction) == None;
      var existingRoom := roomMap[(x, y)];
      var newX, newY := Offset((x, y), direction).0, Offset((x, y), direction).1;
      assert (newX, newY) == Offset((x, y), direction);
      ghost var rooms1, pos1, floor1, roomMap1 := rooms, pos, floor, roomMap;
      IndexesFloorBelow(roomMap, pos, floor, base, f, (newX, newY));
      var newRoom := GenerateRoom();
      pos := pos + [(newX, newY)];
      floor := floor + [f];
      roomMap' := roomMap[(newX, newY) := newRoom];
      LinkRooms(existingRoom, newRoom, direction);
      CheckAndLink(newRoom, newX, newY, roomMap');
      GrowOne(rooms1, pos1, floor1, base, f, roomMap1, parent, parentDir, (x, y), direction, rooms);
      AppendKeepsPrefix(pos1, (newX, newY), base);
      AppendKeepsPrefix(floor1, f, base);
      parent' := parent + [existingRoom];
      parentDir' := parentDir + [Opposite(direction)];
    }

    /**
     * `Dungeon::traverseAndPrint` without its output: the rooms in the order the breadth-first
     * search visits them (neighbours queued north, south, east, west, each relative coordinate
     * queued once). A null start visits nothing; otherwise each room is visited once, the start
     * first, and the visited rooms are exactly those reachable from the start.
     */
    method TraverseAndPrint(startRoom: Option<nat>) returns (order: seq<nat>)
      requires Valid() && (startRoom.Some? ==> startRoom.value < |rooms|)
      ensures startRoom == None ==> order == []
      ensures Distinct(order)
      ensures startRoom.Some? ==>
        |order| > 0 && order[0] == startRoom.value
        && forall r: nat :: r in order <==> r < |rooms| && Reachable(rooms, startRoom.value, r)
    {
      if startRoom == None {
        return [];
      }
      var s := startRoom.value;
      var q: seq<(nat, Coord)> := [(s, (0, 0))];
      var visited: map<Coord, nat> := map[(0, 0) := s];
      order := [];
      ghost var enq: seq<nat> := [s];
      FrontierStart(rooms, pos, floor, s);
      while |q| > 0
        invariant Frontier(rooms, pos, floor, s, order, q, visited, enq, {0, 1, 2, 3})
        decreases |rooms| - |order|
      {
        FrontierPop(rooms, pos, floor, s, order, q, visited, enq);
        var currentRoom, coords := q[0].0, q[0].1;
        q := q[1..];
        var x, y := coords.0, coords.1;
        order := order + [currentRoom];
        q, visited, enq := QueueNorthSouth(rooms, pos, floor, s, currentRoom, x, y, q, visited, order, enq);
        q, visited, enq := QueueEastWest(rooms, pos, floor, s, currentRoom, x, y, q, visited, order, enq);
      }
      FrontierDone(rooms, pos, floor, s, order, visited, enq);
    }

    /**
     * The number of rooms reachable from a start room, counted by the breadth-first traversal
     * (zero for a null start).
     */
    method NumRooms(startRoom: Option<nat>) returns (count: nat)
      requires Valid() && (startRoom.Some? ==> startRoom.value < |rooms|)
      ensures startRoom == None ==> count == 0
      ensures startRoom.Some? ==> count == |ReachableSet(rooms, startRoom.value)|
    {
      var order := TraverseAndPrint(startRoom);
      count := |order|;
      if startRoom.Some? {
        assert Elements(order) == ReachableSet(rooms, startRoom.value);
        DistinctSize(order);
      }
    }
  }

  /**
   * A fresh dungeon given one floor of `n` rooms counts `n` rooms from the room it returns: every
   * room is reachable from the entry. A non-positive `n` gives no entry and a count of zero.
   */
  method GenerateAndCount(n: int) returns (count: nat)
    ensures count == if n > 0 then n else 0
  {
    var dungeon := new Dungeon();
    var entry := dungeon.GenerateFloor(n);
    count := dungeon.NumRooms(entry);
    if n > 0 {
      assert ReachableSet(dungeon.rooms, entry.value) == Below(n);
    }
  }
}
