/**
 * Rooms: the lattice node `Room` with its four neighbour links, and the `RoomContent` of a room
 * (its type, description, enemies, items, non-player character, coordinates and visited flag).
 * The resource files the content is drawn from are given as strings, and the chance rolls that
 * filter their lines as sequences of rolls, one per line.
 */
module Rooms {
  import opened Wrappers
  import opened Toolkit

  /**
   * A room as the dungeon graph sees it: the ids (positions in the dungeon's room list) of its
   * north, south, west and east neighbours; `None` where the source has a null pointer.
   */
  datatype Room = Room(north: Option<nat>, south: Option<nat>, west: Option<nat>, east: Option<nat>)

  /** `Room::Room()`: all four neighbour links null. */
  const NewRoom: Room := Room(None, None, None, None)

  /** An enemy as a room lists it: the name, health and attack read from its resource line. */
  datatype EnemyStruct = EnemyStruct(name: string, health: int, attack: int)

  /** The two games a gambling NPC can offer. */
  datatype GameKind = TicTacToeGame | BlackJackGame

  /** `getGameName` of each game. */
  function GameName(g: GameKind): (name: string)
    ensures |name| >= 9
  {
    match g
    case TicTacToeGame => "TicTacToe"
    case BlackJackGame => "Black Jack"
  }

  /** A non-player character; `gamblingGame` is `None` where the source holds a null game. */
  datatype NPC = NPC(name: string, gamblingGame: Option<GameKind>, skillLevel: int)

  /** A default-constructed NPC: no name and no game. */
  const NoNPC: NPC := NPC("", None, 0)

  // ---------------------------------------------------------------- resource lines

  /**
   * One line `name:chance:health:attack` of the enemy list against its roll: a candidate when the
   * chance beats the roll. A line without a chance field is an error (`at(1)` throws); so is a
   * winning line without health and attack fields, which `operator[]` reads out of range (undefined
   * behaviour, not a throw).
   */
  function EnemyCandidate(line: string, roll: int): (r: Result<Option<EnemyStruct>, string>)
    ensures |Split(line, ':')| < 2 ==> r.Err?
    ensures |Split(line, ':')| >= 2 && StringToInt(Split(line, ':')[1]) <= roll ==> r == Ok(None)
    ensures r.Ok? && r.value.Some? ==> |Split(line, ':')| >= 4 && StringToInt(Split(line, ':')[1]) > roll
    ensures 0 <= roll && |Split(line, ':')| >= 2 && StringToInt(Split(line, ':')[1]) <= 0 ==> r == Ok(None)
    ensures roll <= 10 && |Split(line, ':')| >= 4 && StringToInt(Split(line, ':')[1]) > 10 ==> r.Ok? && r.value.Some?
  {
    var f := Split(line, ':');
    if |f| < 2 then Err("enemy line without a chance")
    else if StringToInt(f[1]) <= roll then Ok(None)
    else if |f| < 4 then Err("enemy line without health and attack")
    else Ok(Some(EnemyStruct(f[0], StringToInt(f[2]), StringToInt(f[3]))))
  }

  /** One line `name:chance` of the item list against its roll: the item when the chance beats the roll. */
  function ItemCandidate(line: string, roll: int): (r: Result<Option<string>, string>)
    ensures |Split(line, ':')| < 2 <==> r.Err?
    ensures r.Ok? ==> (r.value.Some? <==> StringToInt(Split(line, ':')[1]) > roll)
    ensures r.Ok? && r.value.Some? ==> ':' !in r.value.value
  {
    var f := Split(line, ':');
    if |f| < 2 then Err("item line without a chance")
    else if StringToInt(f[1]) > roll then Ok(Some(f[0]))
    else Ok(None)
  }

  /**
   * The enemies the filtering loop of `emptyRoom` collects from the lines, in line order, each line
   * against its own roll; the first malformed line makes the whole parse fail.
   */
  function EnemyCandidates(lines: seq<string>, rolls: seq<int>): (r: Result<seq<EnemyStruct>, string>)
    requires |rolls| == |lines|
    ensures r.Ok? ==> |r.value| <= |lines|
    decreases |lines|
  {
    if lines == [] then Ok([])
    else
      var n := |lines| - 1;
      match EnemyCandidates(lines[..n], rolls[..n])
      case Err(e) => Err(e)
      case Ok(c) =>
        match EnemyCandidate(lines[n], rolls[n])
        case Err(e) => Err(e)
        case Ok(None) => Ok(c)
        case Ok(Some(enemy)) => Ok(c + [enemy])
  }

  /** The items the filtering loop of `emptyRoom` collects, like `EnemyCandidates`. */
  function ItemCandidates(lines: seq<string>, rolls: seq<int>): (r: Result<seq<string>, string>)
    requires |rolls| == |lines|
    ensures r.Ok? ==> |r.value| <= |lines|
    ensures r.Ok? ==> forall k :: 0 <= k < |r.value| ==> ':' !in r.value[k]
    decreases |lines|
  {
    if lines == [] then Ok([])
    else
      var n := |lines| - 1;
      match ItemCandidates(lines[..n], rolls[..n])
      case Err(e) => Err(e)
      case Ok(c) =>
        match ItemCandidate(lines[n], rolls[n])
        case Err(e) => Err(e)
        case Ok(None) => Ok(c)
        case Ok(Some(item)) => Ok(c + [item])
  }

  /** The resource line an enemy is written as. */
  function EnemyLine(e: EnemyStruct, chance: int): string
  {
    Join([e.name, IntToString(chance), IntToString(e.health), IntToString(e.attack)], ":")
  }

  /** The resource line an item is written as. */
  function ItemLine(item: string, chance: int): string
  {
    Join([item, IntToString(chance)], ":")
  }

  lemma IntToStringNoColon(n: int)
    ensures ':' !in IntToString(n) && IntToString(n) != []
  {
    var m: nat := if n < 0 then -n else n;
    var ds := NatToString(m);
    assert forall k :: 0 <= k < |ds| ==> IsDigit(ds[k]);
    assert ':' !in ds;
  }

  /** `stringToInt` reads back the decimal form of any `int`. */
  lemma ReadBack(n: int)
    requires InInt32(n)
    ensures StringToInt(IntToString(n)) == n
  {
    StringToIntOfIntToString("", n, "");
    assert "" + IntToString(n) + "" == IntToString(n);
  }

  /**
   * Round trip: an enemy written as its resource line, with a name free of ':', is read back as
   * that very enemy exactly when its chance beats the roll.
   */
  lemma EnemyLineRoundTrip(e: EnemyStruct, chance: int, roll: int)
    requires ':' !in e.name && InInt32(chance) && InInt32(e.health) && InInt32(e.attack)
    ensures EnemyCandidate(EnemyLine(e, chance), roll) == Ok(if chance > roll then Some(e) else None)
  {
    var tokens := [e.name, IntToString(chance), IntToString(e.health), IntToString(e.attack)];
    IntToStringNoColon(chance);
    IntToStringNoColon(e.health);
    IntToStringNoColon(e.attack);
    SplitJoin(tokens, ':');
    ReadBack(chance);
    ReadBack(e.health);
    ReadBack(e.attack);
  }

  /** Round trip: an item written as its resource line is read back when its chance beats the roll. */
  lemma ItemLineRoundTrip(item: string, chance: int, roll: int)
    requires ':' !in item && InInt32(chance)
    ensures ItemCandidate(ItemLine(item, chance), roll) == Ok(if chance > roll then Some(item) else None)
  {
    IntToStringNoColon(chance);
    SplitJoin([item, IntToString(chance)], ':');
    ReadBack(chance);
  }

  /**
   * Enemies certain to appear: when every line is a well-formed enemy line whose chance exceeds 10,
   * no roll in [0, 10] can reject it, and every line gives one candidate.
   */
  lemma {:induction false} CertainEnemies(lines: seq<string>, rolls: seq<int>)
    requires |rolls| == |lines|
    requires forall k :: 0 <= k < |rolls| ==> 0 <= rolls[k] <= 10
    requires forall k :: 0 <= k < |lines| ==> |Split(lines[k], ':')| >= 4 && StringToInt(Split(lines[k], ':')[1]) > 10
    ensures EnemyCandidates(lines, rolls).Ok? && |EnemyCandidates(lines, rolls).value| == |lines|
    decreases |lines|
  {
    if lines != [] {
      var n := |lines| - 1;
      CertainEnemies(lines[..n], rolls[..n]);
    }
  }

  // ---------------------------------------------------------------- descriptions

  function Names(enemies: seq<EnemyStruct>): (names: seq<string>)
    ensures |names| == |enemies|
    ensures forall k :: 0 <= k < |enemies| ==> names[k] == enemies[k].name
  {
    if enemies == [] then [] else Names(enemies[..|enemies| - 1]) + [enemies[|enemies| - 1].name]
  }

  /** The description of an empty room: "Empty Room", followed by " containing " and the enemy names when there are any. */
  function EmptyDescription(enemies: seq<EnemyStruct>): string
  {
    if enemies == [] then "Empty Room" else "Empty Room containing " + Join(Names(enemies), ", ")
  }

  /** The description of a gambling room, and the fallback when the NPC has no game. */
  function GamblingDescription(npc: NPC): string
  {
    match npc.gamblingGame
    case Some(g) => "Gambling Room containing a " + npc.name + " who wants to play " + GameName(g)
    case None => UnknownGame
  }

  const UnknownGame: string := "Gambling Room containing a with an unknown game"

  /** The description is the bare "Empty Room" exactly when the room holds no enemy. */
  lemma EmptyDescriptionBare(enemies: seq<EnemyStruct>)
    ensures EmptyDescription(enemies) == "Empty Room" <==> enemies == []
    ensures EmptyDescription(enemies)[..10] == "Empty Room"
  {
    if enemies != [] {
      assert |EmptyDescription(enemies)| >= 22;
    }
  }

  /** The gambling description names a game exactly when the NPC has one; otherwise it is the fallback. */
  lemma GamblingFallback(npc: NPC)
    ensures GamblingDescription(npc) == UnknownGame <==> npc.gamblingGame.None?
  {
    if npc.gamblingGame.Some? {
      assert |GamblingDescription(npc)| >= 27 + 19 + 9;
    }
  }

  lemma JoinSnoc(tokens: seq<string>, t: string, sep: string)
    requires tokens != []
    ensures Join(tokens + [t], sep) == Join(tokens, sep) + sep + t
    decreases |tokens|
  {
    if |tokens| == 1 {
      assert (tokens + [t])[1..] == [t];
    } else {
      assert (tokens + [t])[1..] == tokens[1..] + [t];
      JoinSnoc(tokens[1..], t, sep);
    }
  }

  /**
   * The description loop of the constructor's type-0 case: "Empty Room", then " containing " and the
   * names separated by ", " when the room has enemies.
   */
  method DescribeEmptyRoom(enemies: seq<EnemyStruct>) returns (roomDesc: string)
    ensures roomDesc == EmptyDescription(enemies)
  {
    roomDesc := "Empty Room";
    if enemies != [] {
      roomDesc := roomDesc + " containing ";
      var i := 0;
      while i < |enemies|
        invariant 0 <= i <= |enemies|
        invariant i == 0 ==> roomDesc == "Empty Room containing "
        invariant i > 0 ==> roomDesc == "Empty Room containing " + Join(Names(enemies[..i]), ", ")
      {
        if i > 0 {
          roomDesc := roomDesc + ", ";
        }
        assert enemies[..i + 1] == enemies[..i] + [enemies[i]];
        if i > 0 {
          JoinSnoc(Names(enemies[..i]), enemies[i].name, ", ");
        }
        roomDesc := roomDesc + enemies[i].name;
        i := i + 1;
      }
      assert enemies[..i] == enemies;
    }
  }

  /** The enemy filtering loop of `emptyRoom`: false when a line is malformed, otherwise the candidates. */
  method FilterEnemies(enemyLines: seq<string>, enemyRolls: seq<int>) returns (ok: bool, listOfRoomEnemies: seq<EnemyStruct>)
    requires |enemyRolls| == |enemyLines|
    ensures ok <==> EnemyCandidates(enemyLines, enemyRolls).Ok?
    ensures ok ==> listOfRoomEnemies == EnemyCandidates(enemyLines, enemyRolls).value
  {
    listOfRoomEnemies := [];
    var i := 0;
    while i < |enemyLines|
      invariant 0 <= i <= |enemyLines|
      invariant EnemyCandidates(enemyLines[..i], enemyRolls[..i]) == Ok(listOfRoomEnemies)
    {
      var details := Split(enemyLines[i], ':');
      assert enemyLines[..i + 1][..i] == enemyLines[..i] && enemyRolls[..i + 1][..i] == enemyRolls[..i];
      if |details| < 2 {
        ok := false;
        CandidatesErrPersists(enemyLines, enemyRolls, i + 1);
        return;
      }
      if StringToInt(details[1]) > enemyRolls[i] {
        if |details| < 4 {
          ok := false;
          CandidatesErrPersists(enemyLines, enemyRolls, i + 1);
          return;
        }
        listOfRoomEnemies := listOfRoomEnemies + [EnemyStruct(details[0], StringToInt(details[2]), StringToInt(details[3]))];
      }
      i := i + 1;
    }
    assert enemyLines[..i] == enemyLines && enemyRolls[..i] == enemyRolls;
    ok := true;
  }

  /** The item filtering loop of `emptyRoom`: false when a line is malformed, otherwise the candidates. */
  method FilterItems(itemLines: seq<string>, itemRolls: seq<int>) returns (ok: bool, listRoomItems: seq<string>)
    requires |itemRolls| == |itemLines|
    ensures ok <==> ItemCandidates(itemLines, itemRolls).Ok?
    ensures ok ==> listRoomItems == ItemCandidates(itemLines, itemRolls).value
  {
    listRoomItems := [];
    var i := 0;
    while i < |itemLines|
      invariant 0 <= i <= |itemLines|
      invariant ItemCandidates(itemLines[..i], itemRolls[..i]) == Ok(listRoomItems)
    {
      var details := Split(itemLines[i], ':');
      assert itemLines[..i + 1][..i] == itemLines[..i] && itemRolls[..i + 1][..i] == itemRolls[..i];
      if |details| < 2 {
        ok := false;
        ItemErrPersists(itemLines, itemRolls, i + 1);
        return;
      }
      if StringToInt(details[1]) > itemRolls[i] {
        listRoomItems := listRoomItems + [details[0]];
      }
      i := i + 1;
    }
    assert itemLines[..i] == itemLines && itemRolls[..i] == itemRolls;
    ok := true;
  }

  // ---------------------------------------------------------------- RoomContent

  class RoomContent {
    var roomType: int
    var roomDesc: string
    var items: seq<string>
    var enemies: seq<EnemyStruct>
    var npc: NPC
    var cords: (int, int)
    var visited: bool

    /**
     * The state the constructor's type-0 case leaves: 1 to 4 enemies and 1 to 3 items picked from
     * the candidates (none of a kind without candidates), and the description listing the enemies.
     */
    ghost predicate EmptyFurnished(enemyFile: string, itemFile: string, enemyRolls: seq<int>, itemRolls: seq<int>)
      requires |enemyRolls| == |Split(enemyFile, '\n')| && |itemRolls| == |Split(itemFile, '\n')|
      requires EnemyCandidates(Split(enemyFile, '\n'), enemyRolls).Ok?
      requires ItemCandidates(Split(itemFile, '\n'), itemRolls).Ok?
      reads this
    {
      roomDesc == EmptyDescription(enemies) &&
      Picked(enemies, EnemyCandidates(Split(enemyFile, '\n'), enemyRolls).value, 4) &&
      Picked(items, ItemCandidates(Split(itemFile, '\n'), itemRolls).value, 3)
    }

    /**
     * The state the constructor's type-1 case leaves: no enemies or items, an NPC with a game and a
     * name from the list when the list is not empty (none otherwise), and the description of the NPC.
     */
    ghost predicate GamblingFurnished(npcFile: string)
      reads this
    {
      enemies == [] && items == [] && roomDesc == GamblingDescription(npc) &&
      (npc.gamblingGame.None? <==> Split(npcFile, '\n') == []) &&
      (npc.gamblingGame.Some? ==> npc.name in Split(npcFile, '\n') && npc.skillLevel == 0)
    }

    /**
     * `RoomContent::RoomContent()`: type 0 or 1 drawn at random; an empty room is filled by
     * `EmptyRoom` and described by its enemies, a gambling room gets an NPC from `GamblingRoom` and
     * is described by it. The resource files must parse; otherwise the source throws (`at(1)`) or
     * reads a line's fields out of range with `operator[]` (undefined behaviour).
     */
    constructor(enemyFile: string, itemFile: string, npcFile: string, enemyRolls: seq<int>, itemRolls: seq<int>)
      requires |enemyRolls| == |Split(enemyFile, '\n')| && |itemRolls| == |Split(itemFile, '\n')|
      requires EnemyCandidates(Split(enemyFile, '\n'), enemyRolls).Ok?
      requires ItemCandidates(Split(itemFile, '\n'), itemRolls).Ok?
      ensures roomType == 0 || roomType == 1
      ensures roomType == 0 ==> npc == NoNPC && EmptyFurnished(enemyFile, itemFile, enemyRolls, itemRolls)
      ensures roomType == 1 ==> GamblingFurnished(npcFile)
      ensures cords == (0, 0)
    {
      items, enemies, npc := [], [], NoNPC;
      var drawn := GenerateRandomNumber(0, 1);
      roomType := drawn;
      cords := (0, 0);
      new;
      Furnish(enemyFile, itemFile, npcFile, enemyRolls, itemRolls);
    }

    /** The `switch` of the constructor: fills the room by its type and describes it. */
    method Furnish(enemyFile: string, itemFile: string, npcFile: string, enemyRolls: seq<int>, itemRolls: seq<int>)
      requires enemies == [] && items == [] && npc == NoNPC && (roomType == 0 || roomType == 1)
      requires |enemyRolls| == |Split(enemyFile, '\n')| && |itemRolls| == |Split(itemFile, '\n')|
      requires EnemyCandidates(Split(enemyFile, '\n'), enemyRolls).Ok?
      requires ItemCandidates(Split(itemFile, '\n'), itemRolls).Ok?
      modifies this`enemies, this`items, this`npc, this`roomDesc
      ensures roomType == 0 ==> npc == NoNPC && EmptyFurnished(enemyFile, itemFile, enemyRolls, itemRolls)
      ensures roomType == 1 ==> GamblingFurnished(npcFile)
    {
      if roomType == 0 {
        var ok := EmptyRoom(enemyFile, itemFile, enemyRolls, itemRolls);
        assert enemies[0..] == enemies && items[0..] == items;
        roomDesc := DescribeEmptyRoom(enemies);
      } else {
        GamblingRoom(npcFile);
        roomDesc := GamblingDescription(npc);
      }
    }

    /**
     * `emptyRoom`: keeps the enemy and item lines whose chance beats their roll, then adds 1 to 4
     * enemies and 1 to 3 items picked from those candidates with replacement (none when there are no
     * candidates). Reports false, adding nothing, when a line is malformed.
     */
    method EmptyRoom(enemyFile: string, itemFile: string, enemyRolls: seq<int>, itemRolls: seq<int>) returns (ok: bool)
      requires |enemyRolls| == |Split(enemyFile, '\n')| && |itemRolls| == |Split(itemFile, '\n')|
      modifies this`enemies, this`items
      ensures ok <==> EnemyCandidates(Split(enemyFile, '\n'), enemyRolls).Ok? && ItemCandidates(Split(itemFile, '\n'), itemRolls).Ok?
      ensures !ok ==> enemies == old(enemies) && items == old(items)
      ensures ok ==> |old(enemies)| <= |enemies| && enemies[..|old(enemies)|] == old(enemies)
      ensures ok ==> |old(items)| <= |items| && items[..|old(items)|] == old(items)
      ensures ok ==> Picked(enemies[|old(enemies)|..], EnemyCandidates(Split(enemyFile, '\n'), enemyRolls).value, 4)
      ensures ok ==> Picked(items[|old(items)|..], ItemCandidates(Split(itemFile, '\n'), itemRolls).value, 3)
    {
      var listOfRoomEnemies, listRoomItems;
      ok, listOfRoomEnemies := FilterEnemies(Split(enemyFile, '\n'), enemyRolls);
      if !ok {
        return;
      }
      ok, listRoomItems := FilterItems(Split(itemFile, '\n'), itemRolls);
      if !ok {
        return;
      }
      var numEnemiesToAdd := GenerateRandomNumber(1, 4);
      var i := 0;
      while i < numEnemiesToAdd && listOfRoomEnemies != []
        invariant 0 <= i <= numEnemiesToAdd
        invariant listOfRoomEnemies == [] ==> i == 0
        invariant |enemies| == |old(enemies)| + i && enemies[..|old(enemies)|] == old(enemies)
        invariant forall k :: |old(enemies)| <= k < |enemies| ==> enemies[k] in listOfRoomEnemies
        invariant items == old(items)
      {
        var index := GenerateRandomNumber(0, |listOfRoomEnemies| - 1);
        AddEnemy(listOfRoomEnemies[index]);
        i := i + 1;
      }
      var numItemsToAdd := GenerateRandomNumber(1, 3);
      ghost var added := enemies;
      i := 0;
      while i < numItemsToAdd && listRoomItems != []
        invariant 0 <= i <= numItemsToAdd
        invariant listRoomItems == [] ==> i == 0
        invariant |items| == |old(items)| + i && items[..|old(items)|] == old(items)
        invariant forall k :: |old(items)| <= k < |items| ==> items[k] in listRoomItems
        invariant enemies == added
      {
        var index := GenerateRandomNumber(0, |listRoomItems| - 1);
        AddItem(listRoomItems[index]);
        i := i + 1;
      }
    }

    /**
     * `gamblingRoom`: draws TicTacToe or BlackJack and, when the NPC list is not empty, an NPC of a
     * random name from it with skill level 0; with no names the NPC is left as it was.
     */
    method GamblingRoom(npcFile: string)
      modifies this`npc
      ensures Split(npcFile, '\n') == [] ==> npc == old(npc)
      ensures Split(npcFile, '\n') != [] ==> npc.name in Split(npcFile, '\n') && npc.gamblingGame.Some? && npc.skillLevel == 0
    {
      var gamblingGameType := GenerateRandomNumber(0, 1);
      var game := if gamblingGameType == 0 then TicTacToeGame else BlackJackGame;
      var npcNames := Split(npcFile, '\n');
      if npcNames == [] {
        return;
      }
      var index := GenerateRandomNumber(0, |npcNames| - 1);
      npc := NPC(npcNames[index], Some(game), 0);
    }

    /** `addItem`: appends the item. */
    method AddItem(item: string)
      modifies this`items
      ensures items == old(items) + [item]
    {
      items := items + [item];
    }

    /** `addEnemy`: appends the enemy. */
    method AddEnemy(enemy: EnemyStruct)
      modifies this`enemies
      ensures enemies == old(enemies) + [enemy]
    {
      enemies := enemies + [enemy];
    }

    /** `addCoordinates`: stores the pair. */
    method AddCoordinates(x: int, y: int)
      modifies this`cords
      ensures cords == (x, y)
    {
      cords := (x, y);
    }

    /** `setVisited`: stores the flag. */
    method SetVisited(hasVisited: bool)
      modifies this`visited
      ensures visited == hasVisited
    {
      visited := hasVisited;
    }

    /** `getCoordinates`: what `addCoordinates` stored last. */
    method GetCoordinates() returns (c: (int, int))
      ensures c == cords
    {
      c := cords;
    }

    /** `getVisited`: what `setVisited` stored last. */
    method GetVisited() returns (v: bool)
      ensures v == visited
    {
      v := visited;
    }
  }

  /**
   * `added` holds what the pick loops add from `candidates`: between 1 and `most` elements of
   * `candidates` when there are candidates, and nothing when there are none.
   */
  ghost predicate Picked<T>(added: seq<T>, candidates: seq<T>, most: nat)
  {
    (candidates == [] ==> added == []) &&
    (candidates != [] ==> 1 <= |added| <= most) &&
    forall k :: 0 <= k < |added| ==> added[k] in candidates
  }

  /** Once a prefix of the lines fails to parse, so do all the lines. */
  lemma {:induction false} CandidatesErrPersists(lines: seq<string>, rolls: seq<int>, n: nat)
    requires |rolls| == |lines| && n <= |lines|
    requires EnemyCandidates(lines[..n], rolls[..n]).Err?
    ensures EnemyCandidates(lines, rolls).Err?
    decreases |lines| - n
  {
    if n < |lines| {
      assert lines[..n + 1][..n] == lines[..n] && rolls[..n + 1][..n] == rolls[..n];
      CandidatesErrPersists(lines, rolls, n + 1);
    } else {
      assert lines[..n] == lines && rolls[..n] == rolls;
    }
  }

  lemma {:induction false} ItemErrPersists(lines: seq<string>, rolls: seq<int>, n: nat)
    requires |rolls| == |lines| && n <= |lines|
    requires ItemCandidates(lines[..n], rolls[..n]).Err?
    ensures ItemCandidates(lines, rolls).Err?
    decreases |lines| - n
  {
    if n < |lines| {
      assert lines[..n + 1][..n] == lines[..n] && rolls[..n + 1][..n] == rolls[..n];
      ItemErrPersists(lines, rolls, n + 1);
    } else {
      assert lines[..n] == lines && rolls[..n] == rolls;
    }
  }
}
