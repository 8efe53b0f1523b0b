# Valeris in Dafny

A model of the core of Valeris, a text-mode dungeon crawler. The game builds each floor of its
dungeon one room at a time on an integer lattice and lets the player walk it with N/S/E/W commands.
Its rooms hold enemies, items or a gambling non-player character who offers a minigame
(TicTacToe, BlackJack or CodeGuesser). Around that sit the player's health and inventory, the
weapon table, the enemy spawner and a few string utilities.

The model follows the program file by file:

- `dungeon_graph.dfy` (module `DungeonGraph`): the room graph over values. A room is a record of
  four optional neighbour ids; `Room::Room()` is the constant `NewRoom`, with all four links null. The
  `RoomContent` that `Room::Room()` also builds is not part of a dungeon room here (see "## Left out").
  It also holds the two-way link and the stitching to lattice neighbours, and the embedding
  invariant. Under that invariant a link exists exactly between lattice-adjacent rooms of one
  floor. The file proves symmetry, reachability and the invariant's preservation by each growth
  step.
- `dungeon.dfy` (module `Dungeons`): the `Dungeon` class over its room list. It holds room
  creation, linking, floor generation with its rejection draw, and the breadth-first traversal
  with its invariant.
- `valeris_game.dfy` (module `Valeris`): the game object, its constructor and the exploration
  loop's command step.
- `tictactoe.dfy`, `blackjack.dfy`, `codeguesser.dfy`: the three minigames. The TicTacToe board is
  an `array2` updated in place, and the BlackJack deck is a sequence the class pushes onto and pops
  from.
- `player.dfy`, `weapon.dfy`, `enemies.dfy`, `rooms.dfy`: the player, the weapon table, the enemy
  spawner and damage rule, and the room contents.
- `toolkit.dfy`: `split`, `repeatString`, case conversion, `stringToInt` and the random range draw.
- `wrappers.dfy`: `Option` and `Result`.

The program's inputs are given to the model as values:

- **Random draws** (`std::mt19937`, `rand()`, `std::shuffle`) are either nondeterministic choices
  restricted to the draw's range, or `rnd: nat` arguments standing for the raw `rand()` result.
- **File contents** (the enemy, item, NPC and word lists) are string arguments.
- **Console commands** are a sequence of characters.

A C++ exception (`at` out of range, `invalid_argument`) becomes the `Err` case of a `Result`; so does
an out-of-range `operator[]` read of a parsed resource line, which in C++ is undefined behaviour
rather than a throw.

## Model

| member | source | states |
|---|---|---|
| DungeonGraph.SetLink | helper/dungeon.cpp:28-43 | writing one slot of a room sets exactly that slot and keeps the other three |
| DungeonGraph.Opposite | helper/dungeon.cpp:28-43 | the slot written back (N and S, W and E) is a direction different from the one linked |
| DungeonGraph.OffsetOpposite | helper/dungeon.cpp:104-120 | a step in a direction followed by a step in its opposite returns to the start coordinate; the opposite of the opposite is the direction itself |
| DungeonGraph.OffsetInjective | helper/dungeon.cpp:104-120 | distinct directions lead to distinct coordinates, and no step leads back to where it starts |
| DungeonGraph.Neighbours | helper/dungeon.cpp:156-175 | a room's neighbours are exactly the ids held in its four links |
| DungeonGraph.Linked | helper/dungeon.cpp:24-45 | `linkRooms`: for a direction 0..3, room1's slot holds room2 and room2's opposite slot holds room1, with every other slot of every room unchanged; any other direction changes nothing |
| DungeonGraph.Stitch | helper/dungeon.cpp:48-70 | `checkAndLink` keeps the number of rooms and changes no room other than the new room and the rooms on the map |
| DungeonGraph.LinkIfPresentSlots | helper/dungeon.cpp:50-54 | one check of `checkAndLink`: the new room's slot in that direction holds the mapped neighbour if there is one; that neighbour links back in the opposite direction; no other slot changes |
| DungeonGraph.StitchSlots | helper/dungeon.cpp:48-70 | after `checkAndLink` (with a one-to-one map that places the new room at (x, y)), the new room links to exactly its mapped lattice neighbours, each of them links back, and nothing else changes |
| DungeonGraph.LinkIffAdjacent | helper/dungeon.cpp:122-127 | in a generated dungeon, room i links to room j in direction d exactly when j is on i's floor at the coordinate one step from i in direction d |
| DungeonGraph.LinkSymmetric | helper/dungeon.cpp:24-45 | in a generated dungeon every link is symmetric: the neighbour exists and links back in the opposite direction |
| DungeonGraph.NeighboursSymmetric | helper/dungeon.cpp:24-45 | the neighbour relation of a generated dungeon is symmetric and stays inside the room list |
| DungeonGraph.ReachableRefl | helper/dungeon.cpp:145-176 | every room reaches itself |
| DungeonGraph.ReachableStep | helper/dungeon.cpp:156-175 | the neighbours of a reachable room are reachable |
| DungeonGraph.ReachableTrans | helper/dungeon.cpp:145-176 | reachability is transitive |
| DungeonGraph.ReachableSymmetric | helper/dungeon.cpp:24-45 | in a generated dungeon reachability is symmetric, because every link can be walked back |
| DungeonGraph.ClosedHoldsReachable | helper/dungeon.cpp:145-176 | a set that contains the start and is closed under neighbours contains every room reachable from the start |
| DungeonGraph.EastMost | helper/dungeon.cpp:89-102 | a nonempty set of coordinates has a member that lies furthest east |
| DungeonGraph.FreeSlotExists | helper/dungeon.cpp:89-102 | while a floor is being grown, some room on it has no east link, so the rejection draw can always be satisfied |
| DungeonGraph.GrowthStep | helper/dungeon.cpp:84-128 | one iteration of the generation loop: the new coordinate was not occupied; afterwards the map is still exact and one-to-one, every link on the floor is the map's lattice neighbour, and the spanning tree grows by the new room |
| DungeonGraph.GrowthTree | helper/dungeon.cpp:122-124 | the new room links back to the room it grew from, so the tree of growth edges extends |
| DungeonGraph.IndexesFloorBelow | helper/dungeon.cpp:122-123 | the floor's map names only existing rooms, including once the new room is added |
| DungeonGraph.GrowthMap | helper/dungeon.cpp:122-123 | adding the new room under a fresh coordinate keeps the map exact and one-to-one |
| DungeonGraph.GrowthSlot | helper/dungeon.cpp:122-127 | after a growth step every link of every room on the floor is the room that the updated map holds at the adjacent coordinate |
| DungeonGraph.NewRoomSlot | helper/dungeon.cpp:124-127 | the same for the new room's own links |
| DungeonGraph.StitchedSlot | helper/dungeon.cpp:127 | the same for an older room's slot that was stitched back to the new room |
| DungeonGraph.KeptSlot | helper/dungeon.cpp:124-127 | the same for an older room's slot that the step left alone |
| DungeonGraph.GrowthPrefix | helper/dungeon.cpp:122-127 | a growth step changes no room of an earlier floor |
| DungeonGraph.GrowingStart | helper/dungeon.cpp:80-82 | the start room alone at (0, 0) establishes the generation loop's invariant |
| DungeonGraph.GrowOne | helper/dungeon.cpp:84-128 | one loop iteration preserves the invariant and leaves earlier floors alone |
| DungeonGraph.ExtendEmbedded | helper/dungeon.cpp:73-131 | a finished floor added to a generated dungeon leaves the whole dungeon generated: links exactly between lattice-adjacent rooms of one floor, with no coordinate occupied twice |
| DungeonGraph.ReachesRoot | helper/dungeon.cpp:122-124 | every room of the floor walks back along the growth tree to the floor's first room |
| DungeonGraph.FloorConnected | helper/dungeon.cpp:84-128 | every room of a generated floor is reachable from every other |
| Dungeons.Below | helper/dungeon.cpp:130 | the ids below n are exactly n ids |
| Dungeons.DistinctSize | helper/dungeon.cpp:139-176 | a list without repetitions has as many elements as its set |
| Dungeons.DistinctBound | helper/dungeon.cpp:139-176 | a list of distinct room ids below n has at most n entries, which bounds the traversal |
| Dungeons.FrontierStart | helper/dungeon.cpp:139-143 | the queue holding the start at (0, 0), with (0, 0) visited, establishes the traversal invariant |
| Dungeons.FrontierPop | helper/dungeon.cpp:147-151 | taking the front of the queue keeps the invariant; the room taken becomes the current room at its relative coordinate |
| Dungeons.PopShape | helper/dungeon.cpp:147-148 | after a pop, the rooms ever queued are still the visited rooms followed by the queue |
| Dungeons.PopPlaced | helper/dungeon.cpp:147-148 | a pop keeps every visited coordinate holding the room that sits there |
| Dungeons.PopClosed | helper/dungeon.cpp:147-148 | a pop keeps every neighbour of a finished room queued |
| Dungeons.FrontierSkip | helper/dungeon.cpp:156-175 | a neighbour check that finds no link, or a visited coordinate, keeps the invariant, because that neighbour is already queued |
| Dungeons.NeighbourQueued | helper/dungeon.cpp:156-175 | the neighbour at a visited coordinate is the room visited there, so it is already queued |
| Dungeons.SkipClosed | helper/dungeon.cpp:156-175 | a direction whose neighbour is queued (or absent) is closed |
| Dungeons.FrontierPush | helper/dungeon.cpp:156-160 | queuing the neighbour at an unvisited coordinate keeps the invariant, and that neighbour was never queued before |
| Dungeons.CurrentReachable | helper/dungeon.cpp:147-151 | the room being visited is reachable from the start |
| Dungeons.PushShape | helper/dungeon.cpp:158-159 | a push keeps the visited rooms followed by the queue equal to the rooms ever queued |
| Dungeons.PushClosed | helper/dungeon.cpp:158-159 | queuing the neighbour closes its direction |
| Dungeons.PushPlaced | helper/dungeon.cpp:158-159 | queuing a room at its own relative coordinate keeps the visited coordinates placed |
| Dungeons.PushQueued | helper/dungeon.cpp:158-159 | queuing a reachable room at an unvisited coordinate keeps every room queued at most once |
| Dungeons.FrontierLook | helper/dungeon.cpp:156-175 | each neighbour check, in either outcome, keeps the invariant and closes its direction |
| Dungeons.FrontierDone | helper/dungeon.cpp:145-176 | when the queue empties, the visited rooms are distinct, start with the start room, and are exactly the rooms reachable from it |
| Dungeons.QueueIfUnvisited | helper/dungeon.cpp:156-160 | one neighbour check: the linked room is queued with its coordinate and recorded as visited unless the link is null or the coordinate is visited; the invariant holds with that direction closed |
| Dungeons.QueueNorthSouth | helper/dungeon.cpp:156-165 | the north then the south check, with the invariant kept |
| Dungeons.QueueEastWest | helper/dungeon.cpp:166-175 | the east then the west check; afterwards every neighbour of the current room is queued |
| Dungeons.FloorFinished | helper/dungeon.cpp:73-131 | when generation ends, the dungeon is still generated, the new rooms are on the new floor, and each new room reaches every other |
| Dungeons.Dungeon.constructor | helper/dungeon.cpp:4 | a dungeon starts with no rooms and no floors |
| Dungeons.Dungeon.GenerateRoom | helper/dungeon.cpp:16-21 | appends a room with all four links null and returns its id |
| Dungeons.Dungeon.LinkRooms | helper/dungeon.cpp:24-45 | the room list becomes `Linked` of the old one |
| Dungeons.Dungeon.CheckAndLink | helper/dungeon.cpp:48-70 | the room list becomes `Stitch` of the old one; with a one-to-one map placing the new room at (x, y), the new room is linked both ways to exactly its mapped lattice neighbours and nothing else changes |
| Dungeons.Dungeon.GenerateFloor | helper/dungeon.cpp:73-131 | a non-positive count returns null and creates nothing; otherwise exactly n rooms are appended, the older rooms are untouched, the first new room is at (0, 0), the dungeon stays generated, every new room reaches every other, and the returned room is one of all the rooms |
| Dungeons.Dungeon.AttachRoom | helper/dungeon.cpp:86-127 | one iteration of the generation loop keeps the loop invariant, adds one room and leaves earlier floors alone |
| Dungeons.Dungeon.TraverseAndPrint | helper/dungeon.cpp:134-177 | a null start visits nothing; otherwise the visit order starts at the start, holds no room twice, and holds exactly the rooms reachable from the start |
| Dungeons.Dungeon.NumRooms | helper/dungeon.cpp:134-177 | the count of rooms the traversal visits: zero for null, otherwise the number of rooms reachable from the start |
| Dungeons.GenerateAndCount | tests/dungeon_test.cpp:25-33 | a fresh dungeon given a floor of n > 0 rooms counts n rooms from the room it returns; a non-positive n counts zero |
| Valeris.CommandDirection | helper/valerisgame.cpp:25-66 | a command names a direction exactly when its upper-case form is N, S, W or E |
| Valeris.CommandCase | helper/valerisgame.cpp:25 | commands are case-insensitive, and each direction's letter names that direction |
| Valeris.NextRoom | helper/valerisgame.cpp:25-73 | a direction command with a neighbour that way moves there; a null neighbour, Q or any other character leaves the current room unchanged |
| Valeris.Walk | helper/valerisgame.cpp:15-75 | a sequence of commands never leads outside the room list (the current room never becomes null) |
| Valeris.EmbeddedLinksBelow | helper/dungeon.cpp:24-45 | in a generated dungeon every link names an existing room |
| Valeris.MoveAndBack | helper/valerisgame.cpp:27-66 | a successful move is undone by the opposite command: N then S, E then W, and so on, come back to the same room |
| Valeris.WalkReachable | helper/valerisgame.cpp:15-75 | a walk never leaves the rooms reachable from where it began |
| Valeris.CommandsRead | helper/valerisgame.cpp:15-75 | the loop reads commands up to and including the first Q or q, or all of them when there is none |
| Valeris.WalkAppend | helper/valerisgame.cpp:15-75 | walking one more command applies one more step to where the walk had got to |
| Valeris.CommandsReadPrefix | helper/valerisgame.cpp:67-70 | a count that stops at the first Q, or at the end, is the count of commands read |
| Valeris.ValerisGame.constructor | helper/valerisgame.cpp:3-7 | the game builds one floor of ten rooms and starts in the returned room, from which every room is reachable |
| Valeris.ValerisGame.Step | helper/valerisgame.cpp:25-74 | one command moves the current room as `NextRoom` says, and exploration continues unless the command is Q or q |
| Valeris.ValerisGame.Start | helper/valerisgame.cpp:9-76 | the layout traversal visits exactly the rooms reachable from the current room; the loop reads commands up to the first Q, and the current room ends where those commands lead |
| TicTacToeGame.TicTacToe.constructor | lib/minigames.h:27 | a new board has all nine squares empty |
| TicTacToeGame.TicTacToe.GetSquare | helper/minigames.cpp:47-50 | returns the symbol at a 0-based square |
| TicTacToeGame.TicTacToe.PlayerMove | helper/minigames.cpp:57-63 | writes X only at an empty square on the board; otherwise the board is unchanged, and no other square ever changes |
| TicTacToeGame.TicTacToe.ComputerTurn | helper/minigames.cpp:69-86 | changes exactly one square, from empty to O; it can finish only when an empty square exists |
| TicTacToeGame.TicTacToe.CheckForWin | helper/minigames.cpp:93-124 | the flag set by the row, column and diagonal checks ends true exactly when one of the eight rows, columns or diagonals holds three equal non-empty symbols |
| TicTacToeGame.TicTacToe.LinesOnBoard | helper/minigames.cpp:93-124 | every one of the eight lines has three squares on the board |
| TicTacToeGame.TicTacToe.RowAndColumnLines | helper/minigames.cpp:96-112 | the square triples the row loop checks are the first three lines, and the column loop's the next three |
| TicTacToeGame.TicTacToe.IsValidMove | helper/minigames.cpp:210-213 | a 1-based row and column are valid exactly when they name one of the nine squares the lines cover |
| TicTacToeGame.TicTacToe.MakeMove | helper/minigames.cpp:215-218 | on a valid 1-based square, writes the symbol at (row - 1, col - 1) and nowhere else |
| TicTacToeGame.TicTacToe.IsGameOver | helper/minigames.cpp:220-239 | the game is over exactly when a line is won or nine moves have been made |
| TicTacToeGame.TicTacToe.SetBoard | helper/minigames.cpp:152-161 | every square becomes the given board's square |
| TicTacToeGame.TopRowScenario | tests/minigames_test.cpp:47-54 | three X moves along the top row win, and the computer's reply on a fresh board with one X fills another square with O |
| BlackJackGame.Copies | helper/minigames.cpp:593-603 | n copies of a suit have n times its length |
| BlackJackGame.SuitFace | helper/minigames.cpp:595-602 | one suit is the values 1 to 9 once each and 10 five times |
| BlackJackGame.FaceCount | helper/minigames.cpp:595-602 | the count of each value in one suit |
| BlackJackGame.FourCopiesCount | helper/minigames.cpp:593 | four copies of a suit hold four times each of its values |
| BlackJackGame.DeckCount | helper/minigames.cpp:593-603 | the new cards are 56: four each of 1 to 9, twenty 10s, and nothing else |
| BlackJackGame.SumBounds | helper/minigames.cpp:548-552 | a hand of card values 1 to 10 totals between one and ten times its size |
| BlackJackGame.Outcome | helper/minigames.cpp:554-565 | the outcome is -1, 0 or 1: a loss exactly on a bust or when standing below the dealer; continue exactly when hitting without a loss and short of 21; a win exactly on a hit to 21 or on standing at or above the dealer without a bust |
| BlackJackGame.BlackJack.constructor | helper/minigames.cpp:443-451 | the bid is 0, and the shuffled deck, the dealer's two cards and the player's two cards are together exactly the 56 new cards, with 52 left in the deck |
| BlackJackGame.BlackJack.FreshGameValues | helper/minigames.cpp:591-609 | after a new game from an empty deck, every card in the deck, the player's hand and the dealer's hand is a value from 1 to 10 |
| BlackJackGame.BlackJack.NewGame | helper/minigames.cpp:591-609 | adds the 56 new cards to the deck, shuffles it (a permutation), and deals; the deck grows by 52 and the player holds two cards |
| BlackJackGame.BlackJack.InitDecks | helper/minigames.cpp:572-585 | the dealer gets the last two cards, the player the two before them, the deck shrinks by four, and no card is lost or created |
| BlackJackGame.BlackJack.Evaluate | helper/minigames.cpp:545-566 | -1 when the player busts or stands below the dealer's total, else 0 when hitting short of 21, else 1 |
| BlackJackGame.BlackJack.DealtHandNeverBusts | helper/minigames.cpp:545-566 | a freshly dealt two-card hand cannot bust, so standing loses exactly when it is below the dealer's total |
| BlackJackGame.DealtValues | helper/minigames.cpp:575-584 | cards dealt from a deck of values 1 to 10 are values 1 to 10 |
| BlackJackGame.FullDeckValues | helper/minigames.cpp:593-603 | every new card is a value from 1 to 10 |
| BlackJackGame.DealtFromFullDeck | helper/minigames.cpp:575-584 | cards dealt from the 56 new cards are values 1 to 10 |
| CodeGuesserGame.CodePrefix | helper/minigames.cpp:366-373 | the letters the inner search looks at are the code's first five |
| CodeGuesserGame.LetterMark | helper/minigames.cpp:356-381 | a letter is green exactly when it is in place, yellow exactly when it is not in place but among the code's first five letters, plain otherwise |
| CodeGuesserGame.CorrectIffAllGreen | helper/minigames.cpp:352-363 | a guess is all green exactly when its first five letters equal the code's |
| CodeGuesserGame.AbsentLetterPlain | helper/minigames.cpp:365-381 | a letter absent from the code's first five is never coloured |
| CodeGuesserGame.GenerateRandomIndex | helper/minigames.cpp:285-295 | an empty word list is an error with the source's message; otherwise the index is inside the list |
| CodeGuesserGame.SearchCode | helper/minigames.cpp:365-373 | finds whether the letter is among the code's first five; a code shorter than five characters without the letter runs past its end and fails |
| CodeGuesserGame.CodeGuesser.constructor | helper/minigames.cpp:301-303 | the words are the lines of the word file, one of them is chosen as the code, and there are no guesses |
| CodeGuesserGame.CodeGuesser.AddGuess | helper/minigames.cpp:345-385 | fails, recording nothing, exactly when the code or the guess is shorter than five characters (bytes for ASCII text); otherwise records the coloured rendering and returns true exactly when the first five letters match the code |
| CodeGuesserGame.CodeGuesser.GetGuessCount | helper/minigames.cpp:423-426 | one per recorded guess |
| CodeGuesserGame.CodeGuesser.GetLastGuess | helper/minigames.cpp:432-435 | the latest recorded guess, or "" before any |
| Players.Clamp | helper/player.cpp:64-78 | a health above the maximum becomes the maximum; a negative health not above it becomes 0; any other health is kept; with a maximum that is not negative the result lies in [0, maximum] |
| Players.FirstIndex | helper/player.cpp:42-43 | the position of the first occurrence, or the length when there is none |
| Players.RemoveFirstCounts | helper/player.cpp:40-51 | removing an absent element changes nothing; removing a present one drops exactly one occurrence, the first, and keeps everything before it |
| Players.AddThenRemove | helper/player.cpp:34-51 | appending a new element and then removing it restores the list |
| Players.FirstIndexAt | helper/player.cpp:42-43 | a position holding the element with no earlier occurrence is the first index |
| Players.Find | helper/player.cpp:42-43 | the linear search returns the first index |
| Players.Player.constructor | helper/player.cpp:4-11 | a new player has the name and class entered, maximum and current health 100, and empty inventory and buffs |
| Players.Player.AddToInventory | helper/player.cpp:34-37 | appends the item at the end |
| Players.Player.RemoveFromInventory | helper/player.cpp:40-51 | removes the first occurrence of the item; an absent item changes nothing |
| Players.Player.SetMaxHelth | helper/player.cpp:54-61 | stores the maximum and lowers the current health to it only if it was above; afterwards current health is at most the maximum |
| Players.Player.SetCurrHealth | helper/player.cpp:64-78 | stores the health clamped as `Clamp` says; with a maximum that is not negative the health is within [0, maximum] |
| Players.Player.AddBuff | helper/player.cpp:81-84 | appends the buff at the end |
| Players.Player.RemoveBuff | helper/player.cpp:87-98 | removes the first occurrence of the buff; an absent buff changes nothing |
| Players.Player.SetResistance | helper/player.cpp:101-104 | stores the resistance |
| Weapons.Range | helper/weapon.cpp:23-49 | the ids lo to hi - 1 in ascending order |
| Weapons.IdMap | helper/weapon.cpp:160-164 | registering records in order maps exactly the ids 1..n, each to its record |
| Weapons.TableRecords | helper/weapon.cpp:23-49 | every record of the table has a name and one of the five rarities |
| Weapons.AppendRecords | helper/weapon.cpp:23-49 | well-formed records stay well-formed when the table's three parts are joined |
| Weapons.TableLowRecords | helper/weapon.cpp:23-31 | weapons 1 to 9 are well-formed |
| Weapons.TableMiddleRecords | helper/weapon.cpp:32-40 | weapons 10 to 18 are well-formed |
| Weapons.TableHighRecords | helper/weapon.cpp:41-49 | weapons 19 to 27 are well-formed |
| Weapons.InitialTable | helper/weapon.cpp:17-50 | every registered weapon has a name, and a rarity outside the five names has no weapon |
| Weapons.FirstWeapons | helper/weapon.cpp:23-24 | weapon 1 is the Plasma Rifle (45 damage, Rare, ranged, no stun); weapon 1 is Rare and weapon 2 is Common |
| Weapons.RegisteredRarity | helper/weapon.cpp:160-164 | each registered id is found under its own rarity |
| Weapons.RegisteredRecords | helper/weapon.cpp:160-164 | registering well-formed records gives a table with well-formed records and no other rarity |
| Weapons.Weapon.constructor | helper/weapon.cpp:17-50 | the id list is 1 to 27 in order, each id maps to its table record, and every id has a record |
| Weapons.Weapon.RegisterAll | helper/weapon.cpp:23-49 | the run of registrations maps ids 1..n to the records in order and lists the ids in order |
| Weapons.Weapon.AddWeapon | helper/weapon.cpp:160-164 | stores or overwrites the record under the id and appends the id to the list |
| Weapons.Weapon.GiveRandWeapon | helper/weapon.cpp:61-65 | returns an element of the id list, and any position can be drawn |
| Weapons.Weapon.GiveRariWeapon | helper/weapon.cpp:74-90 | returns a registered id of the requested rarity when there is one, and -1 exactly when there is none (when -1 is not itself registered) |
| Weapons.Weapon.Record | helper/weapon.cpp:97-147 | a lookup returns the stored record, or inserts and returns the default record for an unregistered id |
| Weapons.Weapon.GetName | helper/weapon.cpp:97-100 | the weapon's name, or "" for an unregistered id; the map keeps every record and gains only a default record under an unregistered id (not added to the id list) |
| Weapons.Weapon.GetDescription | helper/weapon.cpp:106-109 | the description, or ""; the map keeps every record and gains only a default record under an unregistered id |
| Weapons.Weapon.GetDamage | helper/weapon.cpp:115-118 | the damage, or 0; the map keeps every record and gains only a default record under an unregistered id |
| Weapons.Weapon.GetRarity | helper/weapon.cpp:124-127 | the rarity, or ""; the map keeps every record and gains only a default record under an unregistered id |
| Weapons.Weapon.GetRanged | helper/weapon.cpp:135-138 | whether it is ranged, false for an unregistered id; the map keeps every record and gains only a default record under an unregistered id |
| Weapons.Weapon.GetStun | helper/weapon.cpp:144-147 | whether it stuns, false for an unregistered id; the map keeps every record and gains only a default record under an unregistered id |
| Rooms.GameName | helper/room.cpp:36 | each game has a name |
| Rooms.EnemyCandidate | helper/room.cpp:94-103 | an enemy line without a chance field is an error; a chance not above the roll gives no candidate; a candidate has four fields and a chance above the roll; a chance above 10 always wins a roll in [0, 10] |
| Rooms.ItemCandidate | helper/room.cpp:107-112 | an item line without a chance field is an error; otherwise it is a candidate exactly when its chance beats the roll, and the name holds no ':' |
| Rooms.EnemyCandidates | helper/room.cpp:92-104 | the candidates are at most one per line |
| Rooms.ItemCandidates | helper/room.cpp:105-113 | the candidates are at most one per line and hold no ':' |
| Rooms.IntToStringNoColon | helper/room.cpp:94-100 | a number's text is nonempty and holds no ':' |
| Rooms.ReadBack | helper/room.cpp:96-101 | `stringToInt` reads back any 32-bit number's text |
| Rooms.EnemyLineRoundTrip | helper/room.cpp:94-103 | the line `name:chance:health:attack` written for an enemy parses back to that enemy exactly when the chance beats the roll |
| Rooms.ItemLineRoundTrip | helper/room.cpp:107-112 | the line `name:chance` written for an item parses back to that item exactly when the chance beats the roll |
| Rooms.CertainEnemies | helper/room.cpp:92-104 | lines with a chance above 10 all become candidates |
| Rooms.Names | helper/room.cpp:21-28 | the enemy names in list order |
| Rooms.EmptyDescriptionBare | helper/room.cpp:17-29 | the description starts with "Empty Room" and is exactly that when there are no enemies |
| Rooms.GamblingFallback | helper/room.cpp:34-41 | the gambling description is the unknown-game fallback exactly when the NPC has no game |
| Rooms.JoinSnoc | helper/room.cpp:21-28 | joining one more name appends the separator and the name |
| Rooms.DescribeEmptyRoom | helper/room.cpp:17-29 | the loop builds "Empty Room", then " containing " and the names joined by ", " when there are enemies |
| Rooms.FilterEnemies | helper/room.cpp:92-104 | succeeds exactly when every enemy line parses, and then yields the candidates |
| Rooms.FilterItems | helper/room.cpp:105-113 | succeeds exactly when every item line parses, and then yields the candidates |
| Rooms.RoomContent.constructor | helper/room.cpp:9-48 | the type is 0 or 1; an empty room holds 1 to 4 enemies and 1 to 3 items picked from the candidates (none of a kind without candidates) and is described by its enemies; a gambling room holds an NPC named from the list with a game, or the fallback |
| Rooms.RoomContent.Furnish | helper/room.cpp:13-47 | the constructor's switch: each type is furnished and described as above |
| Rooms.RoomContent.EmptyRoom | helper/room.cpp:86-129 | fails exactly when a line fails to parse, and then adds nothing; otherwise appends 1 to 4 enemies and 1 to 3 items drawn with replacement from the candidates, or none of a kind without candidates |
| Rooms.RoomContent.GamblingRoom | helper/room.cpp:55-84 | with an empty name list the NPC is left as it was; otherwise it gets a name from the list, a game and skill level 0 |
| Rooms.RoomContent.AddItem | helper/room.cpp:131-134 | appends the item |
| Rooms.RoomContent.AddEnemy | helper/room.cpp:136-139 | appends the enemy |
| Rooms.RoomContent.AddCoordinates | helper/room.cpp:226-229 | stores the pair |
| Rooms.RoomContent.SetVisited | helper/room.cpp:241-244 | stores the flag |
| Rooms.RoomContent.GetCoordinates | helper/room.cpp:231-234 | returns what was stored |
| Rooms.RoomContent.GetVisited | helper/room.cpp:236-239 | returns what was stored |
| Rooms.CandidatesErrPersists | helper/room.cpp:92-94 | once a line fails to parse, the whole enemy list fails |
| Rooms.ItemErrPersists | helper/room.cpp:105-109 | once a line fails to parse, the whole item list fails |
| Enemies.Enemy.constructor | helper/enemies.cpp:7-15 | an enemy holds the six given fields |
| Enemies.Choose | helper/enemies.cpp:93-97 | a list pick is an entry of the list, and every entry can be picked |
| Enemies.ListEntriesNonEmpty | helper/enemies.cpp:95-117 | no name, type or personality in the fixed lists is empty |
| Enemies.GenerateHealth | helper/enemies.cpp:99-102 | health lies in [50, 100], and every value can come out |
| Enemies.GenerateAttack | helper/enemies.cpp:104-107 | attack lies in [10, 30], and every value can come out |
| Enemies.GenerateDefence | helper/enemies.cpp:121-124 | defence lies in [5, 80], and every value can come out |
| Enemies.SpawnEnemy | helper/enemies.cpp:26-36 | all six fields come from the generators, so the name, type and personality are nonempty entries of the fixed lists and the stats lie in their ranges |
| Enemies.EffectiveHurt | helper/enemies.cpp:75-78 | a Sardaukar takes four fifths of the hurt, rounded toward zero; other types take the whole hurt |
| Enemies.HealthLoss | helper/enemies.cpp:75-79 | as written, any defence strictly between -100 and 100 leaves the loss at the whole effective hurt, and a defence from 100 to 199 takes nothing |
| Enemies.DefenceIgnoredExample | helper/enemies.cpp:79 | a Fremen with defence 50 hit for 20 loses 20 as written, against 10 with the defence applied |
| Enemies.DamageDelt | helper/enemies.cpp:73-80 | as written: the health drops by the effective hurt times 1 minus defence / 100 in integer arithmetic |
| Enemies.ScaledLossBounds | helper/enemies.cpp:79 | with the defence applied, the loss lies between none and the whole hurt; all of it at defence 0, none at 100, and never more at a higher defence |
| Enemies.DamageDeltScaled | helper/enemies.cpp:79 | the corrected rule: the health drops by the hurt scaled by (100 - defence) / 100 |
| Enemies.KillingBlow | helper/enemies.cpp:68-79 | as written, a blow at least as large as the health kills a non-Sardaukar enemy with a defence the spawner can produce |
| Enemies.SetAttack | helper/enemies.cpp:82-85 | stores the attack and changes nothing else |
| Enemies.SetHealth | helper/enemies.cpp:87-90 | stores the health and changes nothing else |
| Toolkit.GenerateRandomNumber | helper/toolkit.cpp:191-202 | the number lies in [low, high] |
| Toolkit.IndexOf | helper/toolkit.cpp:140 | the first position of the delimiter, or the length when there is none |
| Toolkit.Split | helper/toolkit.cpp:134-146 | an empty string yields no tokens, and no token holds the delimiter |
| Toolkit.JoinSplit | helper/toolkit.cpp:134-146 | joining the tokens with the delimiter gives the string back, except for one trailing delimiter, which is dropped |
| Toolkit.JoinSplitAt | helper/toolkit.cpp:140-143 | the join round trip extends over one more token |
| Toolkit.SplitAt | helper/toolkit.cpp:140-143 | the first token is the text before the first delimiter, and the rest is split after it |
| Toolkit.JoinNonEmpty | helper/toolkit.cpp:134-146 | tokens whose last one is nonempty join to a nonempty string |
| Toolkit.IndexOfPrefix | helper/toolkit.cpp:140 | the first delimiter after a token without one is right after that token |
| Toolkit.SplitJoin | helper/toolkit.cpp:134-146 | splitting tokens without the delimiter, joined by it (with a nonempty last token), gives the tokens back, empty tokens included |
| Toolkit.RepeatString | helper/toolkit.cpp:234-247 | the loop's result is the string repeated count times, and "" for a count that is not positive |
| Toolkit.RepeatContents | helper/toolkit.cpp:234-247 | the repetition is empty for a non-positive count; otherwise its length is the length of s times count, and each position holds the character of s at that position modulo the length of s |
| Toolkit.ToLowerCase | helper/toolkit.cpp:253-260 | keeps the length, maps A..Z to a..z and leaves every other character alone |
| Toolkit.ToUpperCase | helper/toolkit.cpp:325-330 | keeps the length, maps a..z to A..Z and leaves every other character alone |
| Toolkit.CaseIdempotent | helper/toolkit.cpp:253-330 | lower-casing twice is lower-casing once, and the same for upper-casing |
| Toolkit.CaseAbsorbs | helper/toolkit.cpp:253-330 | upper-casing after lower-casing is upper-casing, and the other way round |
| Toolkit.DigitRun | helper/toolkit.cpp:213 | the length of the leading run of digits |
| Toolkit.StringToInt | helper/toolkit.cpp:208-227 | the `stoi` value (leading spaces, an optional sign, a digit run) when it fits 32 bits; 0 when there is no leading number or it is out of range |
| Toolkit.NatToString | helper/toolkit.cpp:208-227 | a number's decimal text is a nonempty run of digits |
| Toolkit.DigitsOfNatToString | helper/toolkit.cpp:208-227 | the digits of a number's text are worth the number |
| Toolkit.DigitRunOfDigits | helper/toolkit.cpp:213 | the digit run of digits followed by a non-digit is exactly those digits |
| Toolkit.SkipSpacesPrefix | helper/toolkit.cpp:213 | skipping leading white space leaves the text after it |
| Toolkit.StringToIntOfIntToString | helper/toolkit.cpp:208-227 | `stringToInt` reads back any 32-bit number written in decimal, after white space and before a non-digit |
| Toolkit.ParseOfIntToString | helper/toolkit.cpp:213 | the parse reads back any number written in decimal |
| Toolkit.ParseSignedOfIntToString | helper/toolkit.cpp:213 | the signed parse reads back any number's text |
| Toolkit.ParseDigitsOf | helper/toolkit.cpp:213 | a digit run followed by a non-digit parses to its value |
| Toolkit.ParseSignedNatural | helper/toolkit.cpp:213 | an unsigned digit run parses to its value |
| Toolkit.ParseSignedNegative | helper/toolkit.cpp:213 | a minus sign before a digit run parses to the negated value |

## Left out

- Console output and terminal control are not modelled: `traverseAndPrint`'s printing, `displayContent`, `displayAvailableDirections`, `printBoard`, `displayState`, `printGuesses`, `delay`, `clear`, `typePrint`, `readInt` and the other input helpers. `Dungeons.Dungeon.TraverseAndPrint` returns the visit order instead.
- The minigames' input-driven `start` loops, their win and loss messages, and `getWordLength` are not modelled. These are console interaction, and the constant 5 that `getWordLength` returns is the literal `AddGuess` loops to.
- Reading files (`getFileContent`) is not modelled. The enemy, item, NPC and word lists are string arguments.
- Randomness is not modelled as a distribution. `mt19937`, `rand`, `srand`, `random_device`, `std::shuffle` and the time seeds are nondeterministic choices within the draw's range, or `rnd` arguments for `rand()`.
- `helper/combat.cpp`, the menus and the program's `main` are not part of this model. They depend on wall-clock time, floating point comparisons and console input.
- The `Dungeon` destructor and memory management are not modelled. Rooms are ids into the room list, and a null pointer is `None`.
- The bodies of `numRooms` and `getMap` are not part of the repository. `Dungeons.Dungeon.NumRooms` counts with the breadth-first traversal instead.
- Text is modelled as Dafny strings, whose `char` is a Unicode scalar value, while the source's `std::string` and `char` are bytes. A Dafny `char` stands for one byte, so the model agrees with the source on ASCII text, which is what the game's word lists, resource files and commands are. On other text the model counts and compares code points where the source counts and compares bytes; this holds for the `Toolkit` string functions as well.
- CodeGuesserGame.CodeGuesser.AddGuess: lengths are counted in characters, not bytes. A non-ASCII guess with fewer than five characters but five or more UTF-8 bytes (such as "héll") is an `Err` here, while the source scores it byte by byte; `CodeGuesserGame.SearchCode` compares characters in the same way.
- Valeris.ValerisGame.Start: the model's loop also ends when the commands run out. Each command is one character (a code point), where `>>` into a `char` reads one byte; the two agree on ASCII commands. The source's `while (exploring)` (helper/valerisgame.cpp:16-23) has no end-of-input case: without a Q it keeps looping on a failed `>>`.
- White space in the command stream is not modelled: `commands` is taken to hold the characters `>>` extracts after skipping white space. A blank in `commands` would be counted in `read` and leave the room unchanged, while the source never sees it as a command.
- A dungeon room here is its four links only. The `RoomContent` that `Room::Room()` (helper/room.cpp:198) also constructs for each room is not attached to it; `Rooms.RoomContent` models that content on its own.
- Dungeons.Dungeon.TraverseAndPrint: requires a room list built by the generator. On an arbitrary pointer structure the coordinate-deduplicated traversal need not end, and its result is not characterised.
- Dungeons.Dungeon.GenerateFloor: the returned room is drawn from every room in the list, as in the source. Reachability of all rooms from it is stated only for a fresh dungeon (`Dungeons.GenerateAndCount`, `Valeris.ValerisGame.constructor`), which is how the game uses it.
- Dungeons.QueueNorthSouth: with `Dungeons.QueueEastWest`, it groups the traversal's four neighbour checks in pairs. Each check is `Dungeons.QueueIfUnvisited`.
- BlackJackGame.BlackJack.constructor: the facts that every card is a value from 1 to 10 are stated separately in `BlackJackGame.BlackJack.FreshGameValues`.
- BlackJackGame.BlackJack.NewGame: the shuffle is stated as a permutation only. Which order the time-seeded engine produces is not modelled.
- Weapons.Weapon.GiveRariWeapon: the filtered ids are collected in an unspecified order, as the source's `std::unordered_map` (lib/weapon.h:38) iterates in an unspecified order; so which id a given `rnd` picks is left open.
- Weapons.Weapon.RegisterAll: stands for the constructor's 27 `addWeapon` calls. It is a loop over the table constant `Weapons.Table`, which holds the same records in the same order.
- Rooms.RoomContent.constructor: requires that every enemy and item line has the fields the constructor reads. The source throws (`at(1)`, helper/room.cpp:96) or reads out of range with `operator[]` (undefined behaviour, helper/room.cpp:100-101 and 109) otherwise.
- CodeGuesserGame.CodeGuesser.constructor: requires a nonempty word file. An empty one makes `generateRandomIndex` throw (`CodeGuesserGame.GenerateRandomIndex` models that error).
- Enemies.EffectiveHurt: the Sardaukar `hurt * 0.8` is computed in integers as four fifths rounded toward zero. For 32-bit hurts this gives the same result as the double product converted to `int`.
- Enemies.IsDead is the predicate `health <= 0` itself and carries no separate contract.
- 32-bit overflow of the game's `int` arithmetic (health, damage, coordinates) is not modelled. The integers are unbounded, except for `stringToInt`'s range check, which is modelled.
- Players.Player.SetCurrHealth: `currHealth <= maxHealth` is promised only for a maximum that is not negative. That is what the source guarantees: a negative maximum and a negative health store 0, which is above the maximum.

## Findings

| source | as written | input that shows it | evidently intended | confidence | as-written member | corrected member |
|---|---|---|---|---|---|---|
| helper/enemies.cpp:79 | `hurt * (1 - enemy.defence / 100)` divides in integers, so every defence the spawner can produce (5 to 80) gives a factor of 1 and the defence has no effect | a Fremen with defence 50 hit for 20 loses 20 health | the loss scaled by the defence, (100 - defence) / 100 of the hurt: 10 here | not executed | Enemies.DefenceIgnoredExample | Enemies.ScaledLossBounds |
