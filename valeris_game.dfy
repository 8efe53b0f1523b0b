/**
 * `ValerisGame`: builds a ten-room floor and lets the player walk it with N/S/E/W commands
 * (either case) until Q. The commands the game reads from the console are given as a sequence.
 */
module Valeris {
  import opened Wrappers
  import opened Rooms
  import opened DungeonGraph
  import opened Dungeons
  import opened Toolkit

  /** The direction a command names once upper-cased: N north, S south, W west, E east; anything else none. */
  function CommandDirection(command: char): (d: Option<int>)
    ensures d.Some? ==> IsDirection(d.value)
    ensures d.Some? <==> UpperChar(command) in {'N', 'S', 'W', 'E'}
  {
    var c := UpperChar(command);
    if c == 'N' then Some(0) else if c == 'S' then Some(1)
    else if c == 'W' then Some(2) else if c == 'E' then Some(3) else None
  }

  /** The upper-case command for a direction. */
  function DirectionCommand(d: int): char
    requires IsDirection(d)
  {
    if d == 0 then 'N' else if d == 1 then 'S' else if d == 2 then 'W' else 'E'
  }

  /** Commands are case-insensitive, and each direction's letter names it. */
  lemma CommandCase(command: char, d: int)
    requires IsDirection(d)
    ensures CommandDirection(LowerChar(command)) == CommandDirection(command)
    ensures CommandDirection(DirectionCommand(d)) == Some(d)
  {
  }

  /**
   * One pass of the exploration loop's switch: a direction command moves to the neighbour that
   * way if there is one and otherwise stays; any other command, Q included, stays.
   */
  function NextRoom(rooms: seq<Room>, current: nat, command: char): (next: nat)
    requires current < |rooms|
    ensures CommandDirection(command).Some? && Link(rooms[current], CommandDirection(command).value).Some? ==>
      next == Link(rooms[current], CommandDirection(command).value).value
    ensures !(CommandDirection(command).Some? && Link(rooms[current], CommandDirection(command).value).Some?) ==>
      next == current
  {
    match CommandDirection(command)
    case None => current
    case Some(d) =>
      match Link(rooms[current], d)
      case None => current
      case Some(n) => n
  }

  /** Where a sequence of commands leads, each applied with `NextRoom` in turn. */
  function Walk(rooms: seq<Room>, current: nat, commands: seq<char>): (r: nat)
    requires current < |rooms| && EmbeddedLinks(rooms)
    ensures r < |rooms|
    decreases |commands|
  {
    if commands == [] then current
    else
      Walk(rooms, NextRoom(rooms, current, commands[0]), commands[1..])
  }

  /** In an embedded dungeon every link names an existing room. */
  lemma EmbeddedLinksBelow(rooms: seq<Room>, pos: seq<Coord>, floor: seq<nat>)
    requires Embedded(rooms, pos, floor)
    ensures EmbeddedLinks(rooms)
  {
    forall i, d | 0 <= i < |rooms| && IsDirection(d) && Link(rooms[i], d).Some?
      ensures Link(rooms[i], d).value < |rooms|
    {
      assert LinkExact(rooms, pos, floor, i, d);
    }
  }

  /** A move that succeeds can be undone by the opposite command: north then south comes back, and so on. */
  lemma MoveAndBack(rooms: seq<Room>, pos: seq<Coord>, floor: seq<nat>, current: nat, command: char)
    requires Embedded(rooms, pos, floor) && current < |rooms|
    requires CommandDirection(command).Some? && Link(rooms[current], CommandDirection(command).value).Some?
    ensures var d := CommandDirection(command).value;
      var next := NextRoom(rooms, current, command);
      next < |rooms| && next != current && NextRoom(rooms, next, DirectionCommand(Opposite(d))) == current
  {
    var d := CommandDirection(command).value;
    LinkSymmetric(rooms, pos, floor, current, d);
    LinkIffAdjacent(rooms, pos, floor, current, current, d);
    OffsetInjective(pos[current], d, d);
    CommandCase(command, Opposite(d));
  }

  /** A walk never leaves the rooms reachable from where it began. */
  lemma {:induction false} WalkReachable(rooms: seq<Room>, current: nat, commands: seq<char>)
    requires current < |rooms| && EmbeddedLinks(rooms)
    ensures Reachable(rooms, current, Walk(rooms, current, commands))
    decreases |commands|
  {
    ReachableRefl(rooms, current);
    if commands != [] {
      var next := NextRoom(rooms, current, commands[0]);
      assert next == current || next in Neighbours(rooms[current]);
      WalkReachable(rooms, next, commands[1..]);
      if next != current {
        ReachableStep(rooms, current, current, next);
        ReachableTrans(rooms, current, next, Walk(rooms, next, commands[1..]));
      }
    }
  }

  predicate IsQuit(command: char)
  {
    UpperChar(command) == 'Q'
  }

  /** How many commands the exploration loop reads: up to and including the first Q, or all of them. */
  function CommandsRead(commands: seq<char>): (n: nat)
    ensures n <= |commands|
    ensures forall i :: 0 <= i < n - 1 ==> !IsQuit(commands[i])
    ensures (n > 0 && IsQuit(commands[n - 1])) || (n == |commands| && forall i :: 0 <= i < n ==> !IsQuit(commands[i]))
    decreases |commands|
  {
    if commands == [] then 0
    else if IsQuit(commands[0]) then 1
    else 1 + CommandsRead(commands[1..])
  }

  class ValerisGame {
    var dungeon: Dungeon
    var currentRoom: nat
    var numRooms: int

    ghost predicate Valid()
      reads this, dungeon
    {
      dungeon.Valid() && currentRoom < |dungeon.rooms|
    }

    /**
     * `ValerisGame::ValerisGame`: a fresh dungeon with one floor of ten rooms, starting in the room
     * the generator returns; every room of it is reachable from there.
     */
    constructor()
      ensures Valid() && numRooms == 10 && |dungeon.rooms| == 10
      ensures forall r: nat :: r < |dungeon.rooms| ==> Reachable(dungeon.rooms, currentRoom, r)
    {
      var d := new Dungeon();
      var entry := d.GenerateFloor(10);
      numRooms := 10;
      dungeon := d;
      currentRoom := entry.value;
    }

    /**
     * One command of `ValerisGame::start`'s exploration loop: moves as `NextRoom` says, and reports
     * whether exploring goes on (it stops on Q or q).
     */
    method Step(command: char) returns (exploring: bool)
      requires EmbeddedLinks(dungeon.rooms) && currentRoom < |dungeon.rooms|
      modifies this`currentRoom
      ensures currentRoom == NextRoom(dungeon.rooms, old(currentRoom), command)
      ensures exploring <==> !IsQuit(command)
    {
      var room := dungeon.rooms[currentRoom];
      exploring := true;
      var c := UpperChar(command);
      if c == 'N' {
        if room.north.Some? {
          currentRoom := room.north.value;
        }
      } else if c == 'S' {
        if room.south.Some? {
          currentRoom := room.south.value;
        }
      } else if c == 'E' {
        if room.east.Some? {
          currentRoom := room.east.value;
        }
      } else if c == 'W' {
        if room.west.Some? {
          currentRoom := room.west.value;
        }
      } else if c == 'Q' {
        exploring := false;
      }
    }

    /**
     * `ValerisGame::start`: traverses the floor from the current room (the layout check), then
     * reads commands until Q. `commands` holds the characters `>>` extracts, white space already
     * skipped. Returns the traversal order and how many commands were read; the current room ends
     * where those commands lead.
     */
    method Start(commands: seq<char>) returns (layout: seq<nat>, read: nat)
      requires Valid()
      modifies this`currentRoom
      ensures Valid()
      ensures read == CommandsRead(commands)
      ensures EmbeddedLinks(dungeon.rooms) && currentRoom == Walk(dungeon.rooms, old(currentRoom), commands[..read])
      ensures forall r: nat :: r in layout <==> r < |dungeon.rooms| && Reachable(dungeon.rooms, old(currentRoom), r)
    {
      layout := dungeon.TraverseAndPrint(Some(currentRoom));
      EmbeddedLinksBelow(dungeon.rooms, dungeon.pos, dungeon.floor);
      ghost var rooms, start := dungeon.rooms, currentRoom;
      var exploring := true;
      read := 0;
      while exploring && read < |commands|
        invariant read <= |commands| && dungeon.rooms == rooms && EmbeddedLinks(rooms)
        invariant currentRoom == Walk(rooms, start, commands[..read])
        invariant exploring ==> forall i :: 0 <= i < read ==> !IsQuit(commands[i])
        invariant !exploring ==> read > 0 && IsQuit(commands[read - 1]) && forall i :: 0 <= i < read - 1 ==> !IsQuit(commands[i])
      {
        WalkAppend(rooms, start, commands[..read], commands[read]);
        assert commands[..read + 1] == commands[..read] + [commands[read]];
        exploring := Step(commands[read]);
        read := read + 1;
      }
      CommandsReadPrefix(commands, read);
    }
  }

  /** Every link names an existing room. */
  ghost predicate EmbeddedLinks(rooms: seq<Room>)
  {
    forall i, d :: 0 <= i < |rooms| && IsDirection(d) && Link(rooms[i], d).Some? ==> Link(rooms[i], d).value < |rooms|
  }

  lemma {:induction false} WalkAppend(rooms: seq<Room>, current: nat, commands: seq<char>, c: char)
    requires current < |rooms| && EmbeddedLinks(rooms)
    ensures Walk(rooms, current, commands + [c]) == NextRoom(rooms, Walk(rooms, current, commands), c)
    decreases |commands|
  {
    if commands == [] {
      assert [c][1..] == [];
    } else {
      var next := NextRoom(rooms, current, commands[0]);
      assert (commands + [c])[1..] == commands[1..] + [c];
      WalkAppend(rooms, next, commands[1..], c);
    }
  }

  /** The loop's stopping point is the number of commands `CommandsRead` counts. */
  lemma {:induction false} CommandsReadPrefix(commands: seq<char>, n: nat)
    requires n <= |commands|
    requires forall i :: 0 <= i < n - 1 ==> !IsQuit(commands[i])
    requires (n > 0 && IsQuit(commands[n - 1])) || (n == |commands| && forall i :: 0 <= i < n ==> !IsQuit(commands[i]))
    ensures CommandsRead(commands) == n
    decreases n
  {
    if commands != [] && !IsQuit(commands[0]) {
      CommandsReadPrefix(commands[1..], n - 1);
    }
  }
}
