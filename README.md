# zuul-better: the game engine in Dafny

This project models the game-state engine of *zuul-better*, a small text
adventure. The player moves between five rooms, picks up items, uses a key
on the locked pub, teleports with a beamer, and plays against a day/hour
clock. The model covers the three classes that make up the engine:

- `Item` (item.dfy, module `Items`) is an immutable name/prefix value, so it
  is a datatype.
- `Room` (room.dfy, module `Rooms`) is a class with its exits map, lock flag
  and ordered item list. Its methods change them in place and are proved
  against the list functions `WithItem`, `RemoveFirst` and `Lookup`.
- `Game` (game.dfy, module `Games`) is a class that holds the five rooms, the
  player's room, the beamer's room, the clock, the `finished` flag, the
  inventory and the printed lines (`output`). Its methods follow the Java
  methods. The parts of `goRoom(Command)` (`GoThrough`, `UseKey`,
  `UnlockDoor`, `Travel`), the branches of `processCommand` (`PickupItem`,
  `TakeItem`, `RemoveFromRoom`, `ShowInventory`, `ExamineRoom`, `UseBeamer`,
  `ChargeBeamer`) and one pass of the `play` loop (`Turn`) are methods of
  their own. Each method is proved to do exactly what a pure reference
  model says (module `GameModel`, model.dfy). That reference model is
  `Step(s, c)`, the effect of `processCommand(c)` on a `Snapshot` of the game
  together with its return value and the lines it prints.

What the engine promises is proved over the reference model
(properties.dfy, module `GameProperties`):

- a refused `go` changes nothing;
- the key is used up before the clock is looked at;
- a move takes exactly one hour;
- teleports are free;
- `charge`, any one command, then `beam` comes back to the charged room;
- a beamer, once held, stays held for the rest of a run;
- the Orb is asymmetric;
- the inventory text has the right form;
- `processCommand` returns true only for a bare `quit`;
- the `play` loop stops only there;
- in every run, no room gets locked again, the exits stay fixed, the clock
  never goes back and stays on day 1;
- of all commands, only `charge` moves the beamer's room.

Supporting modules:

- `Wrappers`: `Option`.
- `Text`: ASCII lower-casing, decimal rendering of `int`, and the
  "a, b and c" listing.
- `Commands`: the parsed command, plus `VerbOf`, which names the branch of
  `processCommand` that a command word selects.

Printed text is an appended sequence of strings. The reference model
describes each printed line as a `Line`:

- a fixed message (`Message` with `MessageText`);
- the time;
- a pickup;
- the inventory;
- an examine text;
- a room description.

`Emitted` ties those lines to the strings actually printed.

Four behaviours of the code are easy to misread. The model follows them as
written:

- `beam` goes through `goRoom(Room)`, so it uses no time and checks no lock.
  So does the Orb.
- Once the time limit is reached, `endGame` sets `finished`, but `play`
  overwrites it with `processCommand`'s `false`. The loop therefore continues.
- `hour` is not kept within `MAX_HOURS`. The game-ending move leaves it at 7,
  and every later move that gets through a door raises it again.
- `pickup` without a second word matches no branch of `processCommand`. It
  prints nothing and changes nothing.

## Model

| member | source | states |
|---|---|---|
| Items.Item.NameWithPrefix | zuul-better/Item.java:21-24 | the result is the prefix, one space, then the name; its length is \|prefix\| + \|name\| + 1 |
| Items.NameWithPrefixSplits | zuul-better/Item.java:21-30 | when the prefix holds no space, the prefix and the name are recovered from `getNameWithPrefix()` by splitting at the first space (name and prefix are exactly the constructor's arguments) |
| Rooms.Describe | zuul-better/Room.java:123-145 | the accumulator loop that builds the inventory/examine sentence yields `Sentence(subject, nothing, Shown(items))`: the fixed text for no items, else the lower-cased items with ", " and " and " and a full stop |
| Text.Lower | zuul-better/Room.java:61 | lower-casing keeps the length of the string |
| Text.LowerOfLowerCase | zuul-better/Game.java:265 | a word with no upper-case letter is its own lower-case form |
| Text.Decimal | zuul-better/Game.java:300 | the rendering of a number is a non-empty string of digits without a leading zero |
| Text.DecimalRoundTrip | zuul-better/Game.java:300 | reading the rendered digits back gives the number |
| Text.IntToString | zuul-better/Game.java:300 | the rendering of an `int` starts with '-' exactly when it is negative |
| Text.CommaListStep | zuul-better/Game.java:175-181 | one more loop pass adds ", " and the next entry to the comma list |
| Text.CommaListStartsWithFirst | zuul-better/Game.java:175-176 | the comma list begins with its first entry |
| Text.ListingShape | zuul-better/Game.java:174-182 | a listing of two or more entries starts with the first entry and ends with " and " plus the last |
| Commands.VerbOf | zuul-better/Game.java:134-221 | the branch chosen is `help`/`go`/…/`time` exactly when the word equals that word case-sensitively; any other word chooses none |
| Rooms.IndexOfName | zuul-better/Room.java:49-56 | the index found holds an item of exactly that name, no earlier item has it, and none is found exactly when no item has it |
| Rooms.IndexIgnoringCase | zuul-better/Room.java:58-64 | the index found holds a case-insensitive match, no earlier item matches, and none is found only when no item matches |
| Rooms.ExitAfterSetExit | zuul-better/Room.java:71-74 | after `setExit(d, r)`, `getExit(d)` is `r` and every other direction is as before; a room with no exits gives none for every direction |
| Rooms.Room.constructor | zuul-better/Room.java:32-38 | a new room has the given description, no exits, no items and is unlocked |
| Rooms.Room.AddItem | zuul-better/Room.java:40-47 | the items become `WithItem(old items, item)`: unchanged when an item of the same exact name is present, else the item appended; exits and lock kept |
| Rooms.Room.RemoveItem | zuul-better/Room.java:49-56 | the items become `RemoveFirst(old items, name)`; exits and lock kept |
| Rooms.Room.GetItem | zuul-better/Room.java:58-64 | the result is the first case-insensitive match, or none |
| Rooms.Room.SetExit | zuul-better/Room.java:71-74 | the exit map gains or replaces the one direction; lock and items kept |
| Rooms.Room.GetExit | zuul-better/Room.java:153-156 | the neighbour stored for the direction, or none exactly when no exit was set for it |
| Rooms.Room.GetLocked | zuul-better/Room.java:118-121 | the lock flag, as `setLocked` last set it |
| Rooms.Room.SetLocked | zuul-better/Room.java:76-79 | `getLocked()` afterwards returns the value passed; exits and items kept |
| Rooms.Room.GetLongDescription | zuul-better/Room.java:96-99 | the text is "You are " + description + ".\n" + an exit string that lists every direction exactly once |
| Rooms.Room.GetExitString | zuul-better/Room.java:106-116 | the text is "" for no exits, else "Exits:" and " " + d for each direction, each exactly once, in the order the loop took them |
| Rooms.Room.Examine | zuul-better/Room.java:123-145 | the text is "There is nothing here!" for no items, else "You can see " and the listed items |
| Rooms.WithItemKeepsDistinct | zuul-better/Room.java:40-47 | adding through `addItem` keeps the item names in a room pairwise distinct |
| Rooms.WithItemIdempotent | zuul-better/Room.java:40-47 | adding the same item twice equals adding it once |
| Rooms.RemoveFirstSpec | zuul-better/Room.java:49-56 | with no exact match the list is unchanged; otherwise exactly the first match is removed, the rest keep their order, and the multiset loses that one item |
| Rooms.RemoveFoundItem | zuul-better/Game.java:148-157 | the item `getItem` found is the one `removeItem(item.getName())` removes |
| GameModel.LastNamed | zuul-better/Game.java:187-190 | the index found holds a matching item and no later item matches; none is found exactly when no item matches |
| GameModel.KeyWordLowered | zuul-better/Game.java:265 | comparing with "key" ignoring case is comparing the lower-cased name with "key" |
| GameModel.BeamerWordLowered | zuul-better/Game.java:189 | comparing with "beamer" ignoring case is comparing the lower-cased name with "beamer" |
| GameModel.OrbWordLowered | zuul-better/Game.java:152 | comparing with "Orb" ignoring case is comparing the lower-cased name with "orb" |
| GameModel.StepQuits | zuul-better/Game.java:125-132 | `processCommand` returns true exactly for a bare `quit` |
| GameModel.Play | zuul-better/Game.java:96-100 | the loop reads at most all the commands, and at least one when there is one |
| GameModel.PlayedOneMore | zuul-better/Game.java:97-99 | one more pass of the loop keeps the run on course to the result of `Play` |
| GameModel.PlayedAll | zuul-better/Game.java:97 | a run that has finished or used up its commands has the result of `Play` |
| GameModel.EmittedConcat | zuul-better/Game.java:153-154 | printing one group of lines and then another prints the two groups in order |
| Games.FindLastNamed | zuul-better/Game.java:264-266 | the loop over the inventory ends holding the last item whose lower-cased name is the word |
| Games.CreateRooms | zuul-better/Game.java:52-80 | the five rooms are fresh and distinct, with their descriptions and exits; the pub is locked; the Key is in the theater, the Beamer in the pub, the Sword and then the Orb in the lab |
| Games.PlaceItems | zuul-better/Game.java:77-80 | the four `addItem` calls leave exactly those items in those rooms |
| Games.Game.constructor | zuul-better/Game.java:39-84 | day 1, hour 1, inventory empty, not finished, player and beamer room outside; the five distinct rooms with the descriptions, exits, locked pub and items of `createRooms` |
| Games.Game.PrintTime | zuul-better/Game.java:298-301 | prints "Day: d Hour: h" |
| Games.Game.EnterRoom | zuul-better/Game.java:291-296 | the game becomes `Enter(old state, room)`: only the player's room changes; the time and the room's description are printed |
| Games.Game.EndGame | zuul-better/Game.java:303-307 | `finished` is set and the ending line printed |
| Games.Game.Travel | zuul-better/Game.java:278-287 | the game becomes `Advance(old state, next)`: one hour passes, then the game ends, or the day rolls over, or the player moves |
| Games.Game.UseKey | zuul-better/Game.java:262-275 | with a key the last key is removed and the door unlocked, else nothing changes; the line printed says which |
| Games.Game.UnlockDoor | zuul-better/Game.java:270 | only the lock of that room changes, to unlocked |
| Games.Game.GoRoom | zuul-better/Game.java:245-289 | the game becomes `Go(old state, direction)` and the lines printed are its lines |
| Games.Game.GoThrough | zuul-better/Game.java:261-288 | the game becomes `GoThrough(old state, next)`: a locked door needs a key, then time passes |
| Games.Game.PickupItem | zuul-better/Game.java:147-163 | the game becomes `Pickup(old state, name)` and its lines are printed |
| Games.Game.TakeItem | zuul-better/Game.java:157-160 | the item leaves the room by its exact name and is appended to the inventory; the pickup line is printed |
| Games.Game.RemoveFromRoom | zuul-better/Game.java:157 | only the items of the player's room change, by `RemoveFirst` |
| Games.Game.ShowInventory | zuul-better/Game.java:164-185 | prints the inventory text |
| Games.Game.ExamineRoom | zuul-better/Game.java:144-146 | prints the examine text of the player's room |
| Games.Game.UseBeamer | zuul-better/Game.java:186-201 | the game becomes `Beam(old state)` and its lines are printed |
| Games.Game.ChargeBeamer | zuul-better/Game.java:202-217 | the game becomes `Charge(old state)` and its line is printed |
| Games.Game.PrintHelp | zuul-better/Game.java:232-237 | prints the four fixed help lines |
| Games.Game.Quit | zuul-better/Game.java:314-323 | returns true exactly without a second word; prints "Quit what?" otherwise |
| Games.Game.ProcessCommand | zuul-better/Game.java:125-223 | the game becomes `Step(old state, command)`, the result is its quit flag, and its lines are printed |
| Games.Game.Turn | zuul-better/Game.java:98-99 | `finished` becomes what `processCommand` returns, overwriting any value the command set |
| Games.Game.Play | zuul-better/Game.java:89-102 | the game ends as `Play(start, commands)` says, with as many commands read, and the lines printed are the run's lines followed by the farewell |
| GameProperties.AdvanceChangesHour | zuul-better/Game.java:278-286 | a move past the door always changes the hour |
| GameProperties.GoRefused | zuul-better/Game.java:245-275 | `go` leaves the game unchanged exactly when there is no second word, no exit that way, or a locked door and no key; a refused move prints one line |
| GameProperties.KeyUsedBeforeTimeCheck | zuul-better/Game.java:262-282 | at a locked door with a key, the last key leaves the inventory and the door is unlocked for good (other locks unchanged), even when the move ends the game and the player stays |
| GameProperties.MoveTakesAnHour | zuul-better/Game.java:278-295 | past the last hour of the last day the game finishes and the player stays; past the last hour of an earlier day the hour wraps and the day advances; else the player arrives an hour later; inventory, locks, items and beamer room unchanged |
| GameProperties.NoBeamerNoChange | zuul-better/Game.java:186-217 | without a beamer, `beam` and `charge` change nothing |
| GameProperties.ChargeSetsBeamRoom | zuul-better/Game.java:209-215 | with a beamer and in another room, `charge` sets only the beamer's room, to the player's room |
| GameProperties.BeamIsFree | zuul-better/Game.java:193-199 | with a beamer and away from the charged room, `beam` changes only the player's room, to the charged one: no time, no lock check |
| GameProperties.GoKeepsBeamer | zuul-better/Game.java:262-271 | a beamer held before `go` is still held after it: the only item `go` removes is named "key" |
| GameProperties.PickupKeepsBeamer | zuul-better/Game.java:147-163 | a beamer held before `pickup` is still held after it |
| GameProperties.StepKeepsBeamer | zuul-better/Game.java:125-223 | once a beamer is held, every command leaves one held |
| GameProperties.PlayKeepsBeamer | zuul-better/Game.java:96-100 | once a beamer is held, it is still held when a `play` run ends |
| GameProperties.BeamReturns | zuul-better/Game.java:186-201 | with a beamer, `beam` ends in the charged room (also when already there) and changes neither the clock nor the inventory |
| GameProperties.ChargeThenBeam | zuul-better/Game.java:186-217 | with a beamer, `charge`, then any one command, then `beam` brings the player back to the room charged in; the `beam` itself uses no time |
| GameProperties.PickupWithoutItem | zuul-better/Game.java:147 | `pickup` without a second word changes nothing and prints nothing |
| GameProperties.PickupMissing | zuul-better/Game.java:148-150 | `pickup` of an item not in the room changes nothing and prints one message |
| GameProperties.OrbTeleportsOutside | zuul-better/Game.java:152-155 | picking up the Orb only moves the player outside: the Orb stays in its room and out of the inventory, and the clock does not move |
| GameProperties.PickupMovesItem | zuul-better/Game.java:156-161 | any other item found leaves the room (other items kept in order, multiset less that item) and is appended to the inventory; nothing else changes |
| GameProperties.InventoryChangesNothing | zuul-better/Game.java:164-185 | the `inventory` command changes nothing and prints the inventory text |
| GameProperties.InventoryTextCases | zuul-better/Game.java:164-184 | the empty text for no items; "You have " + item + "." for one; for more, it starts with the first item after "You have " and ends with " and " + the last + "." |
| GameProperties.TimeLimitDoesNotStopPlay | zuul-better/Game.java:99 | a `go` that finishes the game still leaves `finished` false after the loop's assignment |
| GameProperties.PlayStopsOnlyAtQuit | zuul-better/Game.java:96-100 | the loop reads commands up to and including the first bare `quit`, or all of them |
| GameProperties.StepChanges | zuul-better/Game.java:125-223 | only `go`, `pickup <item>`, `beam` and `charge` change the game; every other command leaves it as it was |
| GameProperties.GoPreserves | zuul-better/Game.java:245-289 | `go` never locks a room, keeps the exits and the beamer's room, and never turns the clock back |
| GameProperties.PickupPreserves | zuul-better/Game.java:147-163 | `pickup` never locks a room, keeps the exits, the beamer's room and the clock |
| GameProperties.StepInvariants | zuul-better/Game.java:125-223 | no command locks a room, changes an exit or turns the clock back or past day 1; only `charge` moves the beamer's room, to the player's room |
| GameProperties.PlayInvariants | zuul-better/Game.java:96-100 | over a whole run, no room is locked again, the exits are kept, and the clock stays on day 1 and never goes back |

## Left out

- The parser (`Parser`, `Command`, `parser.getCommand()`) is not part of this model. A command is a datatype: an unknown command, or a word with an optional second word.
- `parser.showCommands()`, the command list printed at the end of `printHelp`, is not modelled; the four fixed help lines are.
- `printWelcome` is not modelled. It is console output only.
- `play` reads its commands from a finite sequence instead of blocking on the terminal. The model also covers a run that ends because the commands run out.
- Rooms.Room.GetExitString: the directions come in the unspecified order of a `HashMap`'s key set. The contract states that each direction appears exactly once and leaves the order open. Room descriptions in the printed lines are stated the same way.
- `getShortDescription` has no callers in the engine and is left out.
- Lower-casing is ASCII only. Java's full Unicode `toLowerCase` is not modelled.
- `"key".toLowerCase()`, `"beamer".toLowerCase()` and `"Orb".toLowerCase()` are written as their values "key", "beamer" and "orb". `KeyWordLowered`, `BeamerWordLowered` and `OrbWordLowered` justify this.
- The chain of `commandWord.equals(...)` tests is written as a match on `VerbOf(word)`. `VerbOf` states which word selects which branch.
- Games.Game.UseKey: `inventory.remove(key)` removes by object identity. It is modelled as removal at the index of the last key found by the loop, which is the same item as long as the inventory holds no item twice. Every item object is created once in `createRooms` and never copied: a pickup moves it from a room to the inventory, and a used key leaves the game, so the inventory never holds the same item twice.
- `day` and `hour` are unbounded integers. Java's 32-bit `int` overflow of `hour` is not modelled; it would take about two thousand million moves after the game has ended.
- Console printing is modelled as appending to `output`. Blank `println()` calls are modelled as an empty line.
