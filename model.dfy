/**
 * The game engine of Game.java as pure functions: a snapshot of everything
 * `processCommand` can change, and `Step`, the effect of one command on it
 * together with the lines printed and the value returned. The class in
 * game.dfy is proved to behave exactly as `Step` says; the lemmas at the end
 * state what the engine promises, for single commands and for whole runs.
 */
module GameModel {
  import opened Wrappers
  import opened Text
  import opened Items
  import opened Rooms
  import opened Commands

  const MaxDays: int := 1
  const MaxHours: int := 6

  /**
   * Everything a command can change. Rooms are kept as references, so that
   * "the beam room is the current room" keeps its meaning as object identity;
   * their exits, lock flags and items are kept per room.
   */
  datatype Snapshot = Snapshot(
    outside: Room,
    exits: map<Room, map<string, Room>>,
    locked: map<Room, bool>,
    items: map<Room, seq<Item>>,
    current: Room,
    beam: Room,
    day: int,
    hour: int,
    finished: bool,
    inventory: seq<Item>)

  /** What one command does: the new snapshot, what `processCommand` returns, and what is printed. */
  datatype Outcome = Outcome(state: Snapshot, quit: bool, lines: seq<Line>)

  function ExitOf(s: Snapshot, r: Room, direction: string): Option<Room>
  {
    if r in s.exits && direction in s.exits[r] then Some(s.exits[r][direction]) else None
  }

  predicate IsLocked(s: Snapshot, r: Room)
  {
    r in s.locked && s.locked[r]
  }

  function ItemsIn(s: Snapshot, r: Room): seq<Item>
  {
    if r in s.items then s.items[r] else []
  }

  /**
   * The index of the last item whose lower-cased name is `lowered`: the item
   * the `for (Item item : inventory)` searches for the key and the beamer
   * end up holding. The searched words are given already in lower case
   * (see `KeyWordLowered`).
   */
  function LastNamed(items: seq<Item>, lowered: string): (r: Option<nat>)
    ensures r.Some? ==> r.value < |items| && Lower(items[r.value].name) == lowered
    ensures r.Some? ==> forall j :: r.value < j < |items| ==> Lower(items[j].name) != lowered
    ensures r.None? <==> forall j :: 0 <= j < |items| ==> Lower(items[j].name) != lowered
    decreases |items|
  {
    if items == [] then None
    else if Lower(items[|items| - 1].name) == lowered then Some(|items| - 1)
    else LastNamed(items[..|items| - 1], lowered)
  }

  /**
   * `name.toLowerCase().equals("key".toLowerCase())`: the word the game
   * compares item names with, lower-cased once and for all; likewise
   * `BeamerWordLowered` and `OrbWordLowered`.
   */
  lemma KeyWordLowered(name: string)
    ensures EqualsIgnoreCase(name, "key") <==> Lower(name) == "key"
  {
    LowerOfLowerCase("key");
  }

  lemma BeamerWordLowered(name: string)
    ensures EqualsIgnoreCase(name, "beamer") <==> Lower(name) == "beamer"
  {
    LowerOfLowerCase("beamer");
  }

  /** `"Orb".toLowerCase()` is "orb". */
  lemma OrbWordLowered(name: string)
    ensures EqualsIgnoreCase(name, "Orb") <==> Lower(name) == "orb"
  {
    LowerOfLowerCase("rb");
    assert Lower("Orb") == [LowerChar('O')] + Lower("rb");
  }

  /** `list.remove(k)`: the item at `k` taken out, the others kept in order. */
  function RemoveAt(items: seq<Item>, k: nat): seq<Item>
    requires k < |items|
  {
    items[..k] + items[k + 1..]
  }

  /** `printTime()` */
  function TimeLine(day: int, hour: int): string
  {
    "Day: " + IntToString(day) + " Hour: " + IntToString(hour)
  }

  /** What the `inventory` command prints. */
  function InventoryText(inventory: seq<Item>): string
  {
    Sentence("You have ", EmptyInventory, Shown(inventory))
  }

  /** The fixed texts `processCommand` and its helpers print. */
  datatype Message =
    | DontKnow | GoWhere | NoDoor | DoorLocked | KeyUsed | NoSuchItem | OrbTeleports
    | NoBeamerToBeam | AlreadyInBeamRoom | Beamed | NoBeamerToCharge | AlreadyCharged | Charged
    | QuitWhat | EndMessage | Goodbye | HelpLost | HelpUniversity | HelpBlank | HelpCommands

  function MessageText(m: Message): string
  {
    match m
    case DontKnow => "I don't know what you mean..."
    case GoWhere => "Go where?"
    case NoDoor => "There is no door!"
    case DoorLocked => "The door is locked, find a key..."
    case KeyUsed => "The key was used to unlock the door..."
    case NoSuchItem => "There is no such item here!"
    case OrbTeleports => "The magical orb teleports you to the outside!"
    case NoBeamerToBeam => "You need to find the beamer before you can beam yourself!"
    case AlreadyInBeamRoom => "You are already in the beamers' charged room!"
    case Beamed => "Beamed!"
    case NoBeamerToCharge => "You need to find the beamer before you can charge your beamer!"
    case AlreadyCharged => "Your beamer is already charged with the current room!"
    case Charged => "Beamer charged with the current room!"
    case QuitWhat => "Quit what?"
    case EndMessage => "Whatever, let's go home and make a real game!"
    case Goodbye => "Thank you for playing.  Good bye."
    case HelpLost => "You are lost. You are alone. You wander"
    case HelpUniversity => "around at the university."
    case HelpBlank => ""
    case HelpCommands => "Your command words are:"
  }

  /** What the `inventory` command prints for an empty inventory. */
  const EmptyInventory := "There is nothing in your inventory!"

  /**
   * A printed line, by what it says: a fixed message, the time, an item
   * picked up, the inventory, the items of a room, or a room's long
   * description.
   */
  datatype Line =
    | Tell(message: Message)
    | Time(day: int, hour: int)
    | PickedUp(item: Item)
    | Inventory(items: seq<Item>)
    | Examine(items: seq<Item>)
    | Look(room: Room)

  /** The fixed lines of `printHelp()`; the command list the parser prints after them is not modelled. */
  const HelpLines: seq<Line> := [Tell(HelpLost), Tell(HelpUniversity), Tell(HelpBlank), Tell(HelpCommands)]

  /** `goRoom(Room)`: print the time, move to `r` unconditionally, describe it. No time passes. */
  function Enter(s: Snapshot, r: Room): (o: Outcome)
    ensures !o.quit
  {
    Outcome(s.(current := r), false, [Time(s.day, s.hour), Look(r)])
  }

  /** The part of `goRoom(Command)` after the lock check: one hour passes, then the game ends or the move happens. */
  function Advance(s: Snapshot, next: Room): (o: Outcome)
    ensures !o.quit
  {
    var hour := s.hour + 1;
    if hour > MaxHours && s.day >= MaxDays then
      Outcome(s.(hour := hour, finished := true), false, [Tell(EndMessage)])
    else if hour > MaxHours then
      Enter(s.(hour := hour % MaxHours, day := s.day + 1), next)
    else
      Enter(s.(hour := hour), next)
  }

  /** At a locked door to `next`: the last key held is used up and the door unlocked; `None` without a key. */
  function Unlock(s: Snapshot, next: Room): Option<Snapshot>
  {
    match LastNamed(s.inventory, "key")
    case None => None
    case Some(k) => Some(s.(inventory := RemoveAt(s.inventory, k), locked := s.locked[next := false]))
  }

  /** `goRoom(Command)` once the exit to `next` is found: a locked door needs a key, then time passes. */
  function GoThrough(s: Snapshot, next: Room): (o: Outcome)
    ensures !o.quit
  {
    if IsLocked(s, next) then
      match Unlock(s, next)
      case None => Outcome(s, false, [Tell(DoorLocked)])
      case Some(unlocked) =>
        var o := Advance(unlocked, next);
        Outcome(o.state, false, [Tell(KeyUsed)] + o.lines)
    else
      Advance(s, next)
  }

  /** `goRoom(Command)` with the command's second word. */
  function Go(s: Snapshot, direction: Option<string>): (o: Outcome)
    ensures !o.quit
  {
    if direction.None? then Outcome(s, false, [Tell(GoWhere)])
    else match ExitOf(s, s.current, direction.value)
      case None => Outcome(s, false, [Tell(NoDoor)])
      case Some(next) => GoThrough(s, next)
  }

  /** An item other than the Orb is picked up: the first item of that name leaves the room, the item joins the inventory. */
  function Take(s: Snapshot, item: Item): Snapshot
  {
    s.(items := s.items[s.current := RemoveFirst(ItemsIn(s, s.current), item.name)],
       inventory := s.inventory + [item])
  }

  function PickedUpText(item: Item): string
  {
    "You picked up " + Lower(item.NameWithPrefix()) + "."
  }

  /** `pickup <name>`: the Orb teleports to the outside and stays where it is; any other item moves to the inventory. */
  function Pickup(s: Snapshot, name: string): (o: Outcome)
    ensures !o.quit
  {
    var here := ItemsIn(s, s.current);
    match Lookup(here, name)
    case None => Outcome(s, false, [Tell(NoSuchItem)])
    case Some(item) =>
      if Lower(item.name) == "orb" then
        var o := Enter(s, s.outside);
        Outcome(o.state, false, [Tell(OrbTeleports)] + o.lines)
      else
        Outcome(Take(s, item), false, [PickedUp(item)])
  }

  /** `beam`: with a beamer held, go back to the charged room (no time passes). */
  function Beam(s: Snapshot): (o: Outcome)
    ensures !o.quit
  {
    if LastNamed(s.inventory, "beamer").None? then
      Outcome(s, false, [Tell(NoBeamerToBeam)])
    else if s.beam == s.current then
      Outcome(s, false, [Tell(AlreadyInBeamRoom)])
    else
      var o := Enter(s, s.beam);
      Outcome(o.state, false, [Tell(Beamed)] + o.lines)
  }

  /** `charge`: with a beamer held, make the current room the beam room. */
  function Charge(s: Snapshot): (o: Outcome)
    ensures !o.quit
  {
    if LastNamed(s.inventory, "beamer").None? then
      Outcome(s, false, [Tell(NoBeamerToCharge)])
    else if s.beam == s.current then
      Outcome(s, false, [Tell(AlreadyCharged)])
    else
      Outcome(s.(beam := s.current), false, [Tell(Charged)])
  }

  /** `quit(command)`: quitting is asked for only by a bare "quit". */
  function Quit(s: Snapshot, second: Option<string>): Outcome
  {
    if second.Some? then Outcome(s, false, [Tell(QuitWhat)]) else Outcome(s, true, [])
  }

  /**
   * `processCommand(command)`. The chain of `commandWord.equals(...)` tests
   * is written as a match on `VerbOf(word)`, which names the word matched.
   */
  function Step(s: Snapshot, c: Command): Outcome
  {
    match c
    case Unknown => Outcome(s, false, [Tell(DontKnow)])
    case Known(word, second) =>
      match VerbOf(word)
      case HelpWord => Outcome(s, false, HelpLines)
      case GoWord => Go(s, second)
      case QuitWord => Quit(s, second)
      case ExamineWord => Outcome(s, false, [Examine(ItemsIn(s, s.current))])
      case PickupWord => if second.Some? then Pickup(s, second.value) else Outcome(s, false, [])
      case InventoryWord => Outcome(s, false, [Inventory(s.inventory)])
      case BeamWord => Beam(s)
      case ChargeWord => Charge(s)
      case TimeWord => Outcome(s, false, [Time(s.day, s.hour)])
      case OtherWord => Outcome(s, false, [])
  }

  /** `processCommand` returns true exactly for a bare "quit". */
  lemma StepQuits(s: Snapshot, c: Command)
    ensures Step(s, c).quit <==> c == Known("quit", None)
  {
  }

  /** One turn of the `play` loop: `finished = processCommand(command)` overwrites the flag. */
  function PlayTurn(s: Snapshot, c: Command): Snapshot
  {
    var o := Step(s, c);
    o.state.(finished := o.quit)
  }

  /** What the `play` loop did: the final snapshot, how many commands it read, what it printed. */
  datatype Session = Session(state: Snapshot, read: nat, lines: seq<Line>)

  /**
   * The `play` loop fed with the commands `cs`: one turn per command, until
   * a turn leaves `finished` set or the commands run out.
   */
  function Play(s: Snapshot, cs: seq<Command>): (r: Session)
    ensures r.read <= |cs|
    ensures cs != [] ==> r.read >= 1
    decreases |cs|
  {
    if cs == [] then Session(s, 0, [])
    else
      var t := PlayTurn(s, cs[0]);
      var lines := Step(s, cs[0]).lines;
      if t.finished then Session(t, 1, lines)
      else
        var rest := Play(t, cs[1..]);
        Session(rest.state, rest.read + 1, lines + rest.lines)
  }

  /**
   * A `play` run of `cs` from `start` that has read `read` commands, printed
   * `done` and reached `s`: stopped with exactly that result, or still
   * going and bound to finish as the rest of the commands from `s` do.
   */
  ghost predicate PlayedSoFar(start: Snapshot, cs: seq<Command>, s: Snapshot, read: nat, done: seq<Line>)
  {
    read <= |cs| &&
    if s.finished then Play(start, cs) == Session(s, read, done)
    else
      var rest := Play(s, cs[read..]);
      Play(start, cs) == Session(rest.state, rest.read + read, done + rest.lines)
  }

  /** Nothing read yet. */
  lemma PlayedNothing(start: Snapshot, cs: seq<Command>)
    requires !start.finished
    ensures PlayedSoFar(start, cs, start, 0, [])
  {
    assert cs[0..] == cs;
  }

  /** One more turn of the run. */
  lemma PlayedOneMore(start: Snapshot, cs: seq<Command>, s: Snapshot, read: nat, done: seq<Line>)
    requires PlayedSoFar(start, cs, s, read, done) && !s.finished && read < |cs|
    ensures PlayedSoFar(start, cs, PlayTurn(s, cs[read]), read + 1, done + Step(s, cs[read]).lines)
  {
    var t := PlayTurn(s, cs[read]);
    var lines := Step(s, cs[read]).lines;
    assert cs[read..][1..] == cs[read + 1..];
    assert Play(s, cs[read..]) == if t.finished then Session(t, 1, lines)
      else var rest := Play(t, cs[read + 1..]); Session(rest.state, rest.read + 1, lines + rest.lines);
    if !t.finished {
      ConcatAssoc(done, lines, Play(t, cs[read + 1..]).lines);
    }
  }

  /** The run is over once the game is finished or the commands are used up. */
  lemma PlayedAll(start: Snapshot, cs: seq<Command>, s: Snapshot, read: nat, done: seq<Line>)
    requires PlayedSoFar(start, cs, s, read, done) && (s.finished || read == |cs|)
    ensures Play(start, cs) == Session(s, read, done)
  {
    if !s.finished {
      assert cs[read..] == [];
      assert done + [] == done;
    }
  }

  /** The printed text `text` is what `line` stands for, in a world with exits `world`. */
  ghost predicate Shows(world: map<Room, map<string, Room>>, line: Line, text: string)
  {
    match line
    case Tell(m) => text == MessageText(m)
    case Time(day, hour) => text == TimeLine(day, hour)
    case PickedUp(item) => text == PickedUpText(item)
    case Inventory(items) => text == InventoryText(items)
    case Examine(items) => text == ExamineText(items)
    case Look(r) => r in world && DescribesRoom(r.description, world[r], text)
  }

  /** Going from output `before` to `after` printed exactly `lines`. */
  ghost predicate Emitted(world: map<Room, map<string, Room>>, lines: seq<Line>,
                          before: seq<string>, after: seq<string>)
  {
    |after| == |before| + |lines| && after[..|before|] == before &&
    forall i :: 0 <= i < |lines| ==> Shows(world, lines[i], after[|before| + i])
  }

  lemma EmittedOne(world: map<Room, map<string, Room>>, line: Line, before: seq<string>, text: string)
    requires Shows(world, line, text)
    ensures Emitted(world, [line], before, before + [text])
  {
    assert (before + [text])[..|before|] == before;
  }

  lemma EmittedNone(world: map<Room, map<string, Room>>, before: seq<string>)
    ensures Emitted(world, [], before, before)
  {
  }

  lemma EmittedLines(world: map<Room, map<string, Room>>, lines: seq<Line>, before: seq<string>, texts: seq<string>)
    requires |lines| == |texts| && forall i :: 0 <= i < |lines| ==> Shows(world, lines[i], texts[i])
    ensures Emitted(world, lines, before, before + texts)
  {
    assert (before + texts)[..|before|] == before;
  }

  lemma EmittedTwo(world: map<Room, map<string, Room>>, l1: Line, l2: Line,
                   before: seq<string>, t1: string, t2: string)
    requires Shows(world, l1, t1) && Shows(world, l2, t2)
    ensures Emitted(world, [l1, l2], before, before + [t1, t2])
  {
    assert (before + [t1, t2])[..|before|] == before;
  }

  lemma EmittedConcat(world: map<Room, map<string, Room>>, l1: seq<Line>, l2: seq<Line>,
                      a: seq<string>, b: seq<string>, c: seq<string>)
    requires Emitted(world, l1, a, b) && Emitted(world, l2, b, c)
    ensures Emitted(world, l1 + l2, a, c)
  {
    assert c[..|b|] == b;
    assert c[..|a|] == b[..|a|];
    forall i | 0 <= i < |l1 + l2|
      ensures Shows(world, (l1 + l2)[i], c[|a| + i])
    {
      if i < |l1| {
        assert c[|a| + i] == b[|a| + i];
      } else {
        assert (l1 + l2)[i] == l2[i - |l1|];
      }
    }
  }
}
