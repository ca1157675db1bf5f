/**
 * Game.java: the game object. It owns the five rooms, the room the player
 * is in, the room the beamer is charged with, the clock, the inventory and
 * the `finished` flag, and interprets commands by changing them in place.
 * Printed lines are appended to `output`.
 */
module Games {
  import opened Wrappers
  import opened Text
  import opened Items
  import opened Rooms
  import opened Commands
  import opened GameModel

  /** The loop of the key and beamer searches: the index of the last item whose lower-cased name is `lowered`. */
  method FindLastNamed(items: seq<Item>, lowered: string) returns (found: Option<nat>)
    ensures found == LastNamed(items, lowered)
  {
    found := None;
    for i := 0 to |items|
      invariant found == LastNamed(items[..i], lowered)
    {
      assert items[..i + 1][..i] == items[..i];
      if Lower(items[i].name) == lowered {
        found := Some(i);
      }
    }
    assert items[..|items|] == items;
  }

  class Game {
    const outside: Room
    const theater: Room
    const pub: Room
    const lab: Room
    const office: Room

    var currentRoom: Room
    var beamRoom: Room
    var finished: bool
    var day: int
    var hour: int
    var inventory: seq<Item>
    /** Every line printed so far. */
    var output: seq<string>

    ghost function Rooms(): set<Room>
    {
      {outside, theater, pub, lab, office}
    }

    /** The exits `createRooms()` sets up; no command changes them. */
    ghost function World(): map<Room, map<string, Room>>
    {
      map[outside := map["east" := theater, "south" := lab, "west" := pub],
          theater := map["west" := outside],
          pub := map[],
          lab := map["north" := outside, "east" := office],
          office := map["west" := lab]]
    }

    /** The five rooms are distinct, their exits are those of `createRooms()`, and the player and the beamer are in the world. */
    ghost predicate Valid()
      reads this`currentRoom, this`beamRoom, Rooms()`exits
    {
      outside != theater && outside != pub && outside != lab && outside != office &&
      theater != pub && theater != lab && theater != office &&
      pub != lab && pub != office && lab != office &&
      outside.exits == map["east" := theater, "south" := lab, "west" := pub] &&
      theater.exits == map["west" := outside] && pub.exits == map[] &&
      lab.exits == map["north" := outside, "east" := office] &&
      office.exits == map["west" := lab] &&
      currentRoom in Rooms() && beamRoom in Rooms()
    }

    ghost function Locks(): map<Room, bool>
      reads Rooms()
    {
      var o, t, p, l, f := outside.locked, theater.locked, pub.locked, lab.locked, office.locked;
      map[outside := o, theater := t, pub := p, lab := l, office := f]
    }

    ghost function Loot(): map<Room, seq<Item>>
      reads Rooms()
    {
      var o, t, p, l, f := outside.items, theater.items, pub.items, lab.items, office.items;
      map[outside := o, theater := t, pub := p, lab := l, office := f]
    }

    /** The abstract state the commands act on. */
    ghost function State(): Snapshot
      reads this, Rooms()
    {
      Snapshot(outside, World(), Locks(), Loot(),
               currentRoom, beamRoom, day, hour, finished, inventory)
    }

    /** `Game()` with `createRooms()`: the fixed world of five rooms, the clock at day 1, hour 1. */
    constructor ()
      ensures Valid() && fresh(Rooms())
      ensures outside != theater && outside != pub && outside != lab && outside != office
      ensures theater != pub && theater != lab && theater != office
      ensures pub != lab && pub != office && lab != office
      ensures outside.exits == map["east" := theater, "south" := lab, "west" := pub]
      ensures theater.exits == map["west" := outside] && pub.exits == map[]
      ensures lab.exits == map["north" := outside, "east" := office]
      ensures outside.description == OutsideDescription && theater.description == TheaterDescription
      ensures pub.description == PubDescription && lab.description == LabDescription
      ensures office.description == OfficeDescription
      ensures office.exits == map["west" := lab]
      ensures pub.locked && !outside.locked && !theater.locked && !lab.locked && !office.locked
      ensures theater.items == [Item("Key", "A")] && pub.items == [Item("Beamer", "A")]
      ensures lab.items == [Item("Sword", "A"), Item("Orb", "An")]
      ensures outside.items == [] && office.items == []
      ensures currentRoom == outside && beamRoom == outside
      ensures day == 1 && hour == 1 && !finished && inventory == [] && output == []
    {
      var o, t, p, l, f := CreateRooms();
      outside, theater, pub, lab, office := o, t, p, l, f;
      beamRoom := o;
      currentRoom := o;
      finished := false;
      day := 1;
      hour := 1;
      inventory := [];
      output := [];
    }

    /** `System.out.println(text)` */
    method Println(text: string)
      modifies this`output
      ensures output == old(output) + [text]
    {
      output := output + [text];
    }

    /** `printTime()` */
    method PrintTime()
      modifies this`output
      ensures output == old(output) + [TimeLine(day, hour)]
    {
      Println("Day: " + IntToString(day) + " Hour: " + IntToString(hour));
    }

    /** `goRoom(Room)`: moves the player to `room` without checking locks and without using time. */
    method EnterRoom(room: Room)
      requires Valid() && room in Rooms()
      modifies this`currentRoom, this`output
      ensures Valid()
      ensures var o := Enter(old(State()), room);
        State() == o.state && Emitted(World(), o.lines, old(output), output)
    {
      ghost var s := State();
      PrintTime();
      currentRoom := room;
      var text := currentRoom.GetLongDescription();
      Println(text);
      Agree(room);
      assert State() == s.(current := room);
      EmittedTwo(World(), Time(s.day, s.hour), Look(room), old(output), TimeLine(s.day, s.hour), text);
    }

    /** In a valid game, the exits, lock flag and items the model sees for a room are the room's own. */
    lemma Agree(r: Room)
      requires Valid() && r in Rooms()
      ensures r in World() && World()[r] == r.exits
      ensures r in Locks() && Locks()[r] == r.locked
      ensures r in Loot() && Loot()[r] == r.items
    {
    }

    /** `endGame()` */
    method EndGame()
      modifies this`finished, this`output
      ensures finished && output == old(output) + [MessageText(EndMessage)]
    {
      Println(MessageText(EndMessage));
      finished := true;
    }

    /** The end of `goRoom(Command)`: an hour passes, then the game ends or the player moves to `next`. */
    method Travel(next: Room)
      requires Valid() && next in Rooms()
      modifies this`hour, this`day, this`finished, this`currentRoom, this`output
      ensures Valid()
      ensures var o := Advance(old(State()), next);
        State() == o.state && Emitted(World(), o.lines, old(output), output)
    {
      hour := hour + 1;
      if hour > MaxHours && day >= MaxDays {
        EndGame();
        EmittedOne(World(), Tell(EndMessage), old(output), MessageText(EndMessage));
        return;
      } else if hour > MaxHours {
        hour := hour % MaxHours;
        day := day + 1;
      }
      EnterRoom(next);
    }

    /** The key search of `goRoom(Command)` at a locked door: the last key held is used up and the door unlocked. */
    method UseKey(next: Room) returns (unlocked: bool)
      requires Valid() && next in Rooms()
      modifies this`inventory, this`output, next
      ensures Valid()
      ensures var u := Unlock(old(State()), next);
        unlocked == u.Some? && State() == (if unlocked then u.value else old(State())) &&
        output == old(output) + [MessageText(if unlocked then KeyUsed else DoorLocked)]
    {
      var key := FindLastNamed(inventory, "key");
      if key.None? {
        Println(MessageText(DoorLocked));
        return false;
      }
      Println(MessageText(KeyUsed));
      inventory := RemoveAt(inventory, key.value);
      UnlockDoor(next);
      unlocked := true;
    }

    /** `nextRoom.setLocked(false)` */
    method UnlockDoor(next: Room)
      requires Valid() && next in Rooms()
      modifies next
      ensures Valid()
      ensures Locks() == old(Locks())[next := false] && Loot() == old(Loot())
    {
      next.SetLocked(false);
      UpdateFive(outside, theater, pub, lab, office, old(outside.locked), old(theater.locked),
                 old(pub.locked), old(lab.locked), old(office.locked), next, false);
    }

    /** `goRoom(Command)`, given the command's second word. */
    method GoRoom(direction: Option<string>)
      requires Valid()
      modifies this`hour, this`day, this`finished, this`currentRoom, this`output, this`inventory, Rooms()
      ensures Valid()
      ensures var o := Go(old(State()), direction);
        State() == o.state && Emitted(World(), o.lines, old(output), output)
    {
      if direction.None? {
        Println(MessageText(GoWhere));
        EmittedOne(World(), Tell(GoWhere), old(output), MessageText(GoWhere));
        return;
      }
      var nextRoom := currentRoom.GetExit(direction.value);
      Agree(currentRoom);
      if nextRoom.None? {
        Println(MessageText(NoDoor));
        EmittedOne(World(), Tell(NoDoor), old(output), MessageText(NoDoor));
      } else {
        GoThrough(nextRoom.value);
      }
    }

    /** The part of `goRoom(Command)` after the exit to `next` is found. */
    method GoThrough(next: Room)
      requires Valid() && next in Rooms()
      modifies this`hour, this`day, this`finished, this`currentRoom, this`output, this`inventory, next
      ensures Valid()
      ensures var o := GameModel.GoThrough(old(State()), next);
        State() == o.state && Emitted(World(), o.lines, old(output), output)
    {
      Agree(next);
      if next.GetLocked() {
        var unlocked := UseKey(next);
        if !unlocked {
          EmittedOne(World(), Tell(DoorLocked), old(output), MessageText(DoorLocked));
          return;
        }
        ghost var middle := output;
        ghost var t := State();
        EmittedOne(World(), Tell(KeyUsed), old(output), MessageText(KeyUsed));
        Travel(next);
        EmittedConcat(World(), [Tell(KeyUsed)], Advance(t, next).lines, old(output), middle, output);
      } else {
        Travel(next);
      }
    }

    /** The `pickup` branch of `processCommand`, given the command's second word. */
    method PickupItem(name: string)
      requires Valid()
      modifies this`currentRoom, this`output, this`inventory, currentRoom
      ensures Valid()
      ensures var o := Pickup(old(State()), name);
        State() == o.state && Emitted(World(), o.lines, old(output), output)
    {
      ghost var s := State();
      var found := currentRoom.GetItem(name);
      assert found == Lookup(ItemsIn(s, s.current), name);
      if found.None? {
        Println(MessageText(NoSuchItem));
        EmittedOne(World(), Tell(NoSuchItem), old(output), MessageText(NoSuchItem));
        return;
      }
      var item := found.value;
      if Lower(item.name) == "orb" {
        Println(MessageText(OrbTeleports));
        ghost var middle := output;
        EmittedOne(World(), Tell(OrbTeleports), old(output), MessageText(OrbTeleports));
        EnterRoom(outside);
        EmittedConcat(World(), [Tell(OrbTeleports)], Enter(s, s.outside).lines,
                      old(output), middle, output);
      } else {
        TakeItem(item);
        EmittedOne(World(), PickedUp(item), old(output), PickedUpText(item));
      }
    }

    /** The `pickup` branch for an item other than the Orb. */
    method TakeItem(item: Item)
      requires Valid()
      modifies this`output, this`inventory, currentRoom
      ensures Valid()
      ensures State() == Take(old(State()), item) && output == old(output) + [PickedUpText(item)]
    {
      ghost var s := State();
      RemoveFromRoom(item.name);
      assert Loot() == s.items[s.current := RemoveFirst(ItemsIn(s, s.current), item.name)];
      Println("You picked up " + Lower(item.NameWithPrefix()) + ".");
      inventory := inventory + [item];
    }

    /** `currentRoom.removeItem(name)`, seen from the game. */
    method RemoveFromRoom(name: string)
      requires Valid()
      modifies currentRoom
      ensures Valid()
      ensures Loot() == old(Loot())[currentRoom := RemoveFirst(old(Loot())[currentRoom], name)]
      ensures Locks() == old(Locks())
    {
      currentRoom.RemoveItem(name);
      UpdateFive(outside, theater, pub, lab, office, old(outside.items), old(theater.items),
                 old(pub.items), old(lab.items), old(office.items), currentRoom, currentRoom.items);
    }

    /** The `inventory` branch of `processCommand`. */
    method ShowInventory()
      modifies this`output
      ensures output == old(output) + [InventoryText(inventory)]
    {
      var text := Describe("You have ", EmptyInventory, inventory);
      Println(text);
    }

    /** The `examine` branch of `processCommand`: `currentRoom.examine()`. */
    method ExamineRoom()
      modifies this`output
      ensures output == old(output) + [ExamineText(currentRoom.items)]
    {
      var text := currentRoom.Examine();
      Println(text);
    }

    /** The `beam` branch of `processCommand`. */
    method UseBeamer()
      requires Valid()
      modifies this`currentRoom, this`output
      ensures Valid()
      ensures var o := Beam(old(State()));
        State() == o.state && Emitted(World(), o.lines, old(output), output)
    {
      ghost var s := State();
      var beamer := FindLastNamed(inventory, "beamer");
      if beamer.None? {
        Println(MessageText(NoBeamerToBeam));
        EmittedOne(World(), Tell(NoBeamerToBeam), old(output), MessageText(NoBeamerToBeam));
      } else if beamRoom == currentRoom {
        Println(MessageText(AlreadyInBeamRoom));
        EmittedOne(World(), Tell(AlreadyInBeamRoom), old(output), MessageText(AlreadyInBeamRoom));
      } else {
        Println(MessageText(Beamed));
        ghost var middle := output;
        EmittedOne(World(), Tell(Beamed), old(output), MessageText(Beamed));
        EnterRoom(beamRoom);
        EmittedConcat(World(), [Tell(Beamed)], Enter(s, s.beam).lines, old(output), middle, output);
      }
    }

    /** The `charge` branch of `processCommand`. */
    method ChargeBeamer()
      requires Valid()
      modifies this`beamRoom, this`output
      ensures Valid()
      ensures var o := Charge(old(State()));
        State() == o.state && Emitted(World(), o.lines, old(output), output)
    {
      ghost var s := State();
      var beamer := FindLastNamed(inventory, "beamer");
      var message;
      if beamer.None? {
        message := NoBeamerToCharge;
      } else if beamRoom == currentRoom {
        message := AlreadyCharged;
      } else {
        message := Charged;
        beamRoom := currentRoom;
        assert State() == s.(beam := s.current);
      }
      Println(MessageText(message));
      EmittedOne(World(), Tell(message), old(output), MessageText(message));
    }

    /** `printHelp()`, without the command list. */
    method PrintHelp()
      modifies this`output
      ensures Emitted(World(), HelpLines, old(output), output)
    {
      Println(MessageText(HelpLost));
      Println(MessageText(HelpUniversity));
      Println(MessageText(HelpBlank));
      Println(MessageText(HelpCommands));
      ghost var texts := [MessageText(HelpLost), MessageText(HelpUniversity), MessageText(HelpBlank), MessageText(HelpCommands)];
      assert output == old(output) + texts;
      EmittedLines(World(), HelpLines, old(output), texts);
    }

    /** `quit(command)`, given the command's second word. */
    method Quit(second: Option<string>) returns (wantToQuit: bool)
      modifies this`output
      ensures var o := GameModel.Quit(old(State()), second);
        wantToQuit == o.quit && Emitted(World(), o.lines, old(output), output)
    {
      if second.Some? {
        Println(MessageText(QuitWhat));
        EmittedOne(World(), Tell(QuitWhat), old(output), MessageText(QuitWhat));
        return false;
      }
      return true;
    }

    /** `processCommand(command)`: what it does to the game, what it prints and what it returns. */
    method ProcessCommand(command: Command) returns (wantToQuit: bool)
      requires Valid()
      modifies this`hour, this`day, this`finished, this`currentRoom, this`beamRoom, this`output, this`inventory, Rooms()
      ensures Valid()
      ensures var o := Step(old(State()), command);
        State() == o.state && wantToQuit == o.quit && Emitted(World(), o.lines, old(output), output)
    {
      ghost var s := State();
      wantToQuit := false;
      if command.Unknown? {
        Println(MessageText(DontKnow));
        EmittedOne(World(), Tell(DontKnow), old(output), MessageText(DontKnow));
        return false;
      }
      match VerbOf(command.word)
      case HelpWord =>
        PrintHelp();
      case GoWord =>
        GoRoom(command.second);
      case QuitWord =>
        wantToQuit := Quit(command.second);
      case ExamineWord =>
        Agree(currentRoom);
        ExamineRoom();
        EmittedOne(World(), Examine(ItemsIn(s, s.current)), old(output), ExamineText(currentRoom.items));
      case PickupWord =>
        if command.second.Some? {
          PickupItem(command.second.value);
        } else {
          EmittedNone(World(), output);
        }
      case InventoryWord =>
        ShowInventory();
        EmittedOne(World(), Inventory(inventory), old(output), InventoryText(inventory));
      case BeamWord =>
        UseBeamer();
      case ChargeWord =>
        ChargeBeamer();
      case TimeWord =>
        PrintTime();
        EmittedOne(World(), Time(day, hour), old(output), TimeLine(day, hour));
      case OtherWord =>
        EmittedNone(World(), output);
      StepQuits(s, command);
    }

    /** One pass of the `play()` loop: `finished = processCommand(command)`. */
    method Turn(command: Command)
      requires Valid()
      modifies this`hour, this`day, this`finished, this`currentRoom, this`beamRoom, this`output, this`inventory, Rooms()
      ensures Valid()
      ensures State() == PlayTurn(old(State()), command)
      ensures Emitted(World(), Step(old(State()), command).lines, old(output), output)
    {
      finished := ProcessCommand(command);
    }

    /**
     * `play()` reading its commands from `commands`: each turn sets `finished`
     * to what `processCommand` returns, until that is true or the commands run
     * out; then the farewell is printed. The welcome text is not modelled.
     */
    method Play(commands: seq<Command>) returns (read: nat)
      requires Valid()
      modifies this`hour, this`day, this`finished, this`currentRoom, this`beamRoom, this`output, this`inventory, Rooms()
      ensures Valid()
      ensures var p := GameModel.Play(old(State()).(finished := false), commands);
        State() == p.state && read == p.read &&
        Emitted(World(), p.lines + [Tell(Goodbye)], old(output), output)
    {
      finished := false;
      ghost var start := State();
      ghost var done: seq<Line> := [];
      read := 0;
      EmittedNone(World(), output);
      PlayedNothing(start, commands);
      while !finished && read < |commands|
        invariant Valid() && PlayedSoFar(start, commands, State(), read, done)
        invariant Emitted(World(), done, old(output), output)
        decreases |commands| - read
      {
        ghost var s := State();
        ghost var before := output;
        ghost var lines := Step(s, commands[read]).lines;
        Turn(commands[read]);
        PlayedOneMore(start, commands, s, read, done);
        EmittedConcat(World(), done, lines, old(output), before, output);
        done := done + lines;
        read := read + 1;
      }
      PlayedAll(start, commands, State(), read, done);
      ghost var before := output;
      Println(MessageText(Goodbye));
      EmittedOne(World(), Tell(Goodbye), before, MessageText(Goodbye));
      EmittedConcat(World(), done, [Tell(Goodbye)], old(output), before, output);
    }
  }

  /** Updating one entry of a map with five distinct keys replaces that entry in place. */
  lemma UpdateFive<K, V>(k1: K, k2: K, k3: K, k4: K, k5: K, v1: V, v2: V, v3: V, v4: V, v5: V, k: K, v: V)
    requires k1 != k2 && k1 != k3 && k1 != k4 && k1 != k5 && k2 != k3 && k2 != k4 && k2 != k5
    requires k3 != k4 && k3 != k5 && k4 != k5
    requires k == k1 || k == k2 || k == k3 || k == k4 || k == k5
    ensures map[k1 := v1, k2 := v2, k3 := v3, k4 := v4, k5 := v5][k := v] ==
            map[k1 := if k == k1 then v else v1, k2 := if k == k2 then v else v2,
                k3 := if k == k3 then v else v3, k4 := if k == k4 then v else v4,
                k5 := if k == k5 then v else v5]
  {
  }

  const OutsideDescription := "outside the main entrance of the university"
  const TheaterDescription := "in a lecture theater"
  const PubDescription := "in the campus pub, it looks like there\n is no exit out of here... " +
                          "\nI need to find another way out"
  const LabDescription := "in a computing lab"
  const OfficeDescription := "in the computing admin office"

  /** `createRooms()`: the five rooms, their exits, the locked pub and the four items. */
  method CreateRooms() returns (outside: Room, theater: Room, pub: Room, lab: Room, office: Room)
    ensures fresh(outside) && fresh(theater) && fresh(pub) && fresh(lab) && fresh(office)
    ensures outside != theater && outside != pub && outside != lab && outside != office
    ensures theater != pub && theater != lab && theater != office
    ensures pub != lab && pub != office && lab != office
    ensures outside.description == OutsideDescription && theater.description == TheaterDescription
    ensures pub.description == PubDescription && lab.description == LabDescription
    ensures office.description == OfficeDescription
    ensures outside.exits == map["east" := theater, "south" := lab, "west" := pub]
    ensures theater.exits == map["west" := outside] && pub.exits == map[]
    ensures lab.exits == map["north" := outside, "east" := office]
    ensures office.exits == map["west" := lab]
    ensures pub.locked && !outside.locked && !theater.locked && !lab.locked && !office.locked
    ensures theater.items == [Item("Key", "A")] && pub.items == [Item("Beamer", "A")]
    ensures lab.items == [Item("Sword", "A"), Item("Orb", "An")]
    ensures outside.items == [] && office.items == []
  {
    outside := new Room(OutsideDescription);
    theater := new Room(TheaterDescription);
    pub := new Room(PubDescription);
    lab := new Room(LabDescription);
    office := new Room(OfficeDescription);

    outside.SetExit("east", theater);
    outside.SetExit("south", lab);
    outside.SetExit("west", pub);
    theater.SetExit("west", outside);
    pub.SetLocked(true);
    lab.SetExit("north", outside);
    lab.SetExit("east", office);
    office.SetExit("west", lab);
    assert outside.exits == map["east" := theater, "south" := lab, "west" := pub];
    assert theater.exits == map["west" := outside] && pub.exits == map[];
    assert lab.exits == map["north" := outside, "east" := office];

    PlaceItems(theater, pub, lab);
  }

  /** The four `addItem` calls of `createRooms()`. */
  method PlaceItems(theater: Room, pub: Room, lab: Room)
    requires theater != pub && theater != lab && pub != lab
    requires theater.items == [] && pub.items == [] && lab.items == []
    modifies theater, pub, lab
    ensures theater.items == [Item("Key", "A")] && pub.items == [Item("Beamer", "A")]
    ensures lab.items == [Item("Sword", "A"), Item("Orb", "An")]
    ensures theater.exits == old(theater.exits) && pub.exits == old(pub.exits) && lab.exits == old(lab.exits)
    ensures theater.locked == old(theater.locked) && pub.locked == old(pub.locked)
    ensures lab.locked == old(lab.locked)
  {
    theater.AddItem(Item("Key", "A"));
    lab.AddItem(Item("Sword", "A"));
    assert !HasName([Item("Sword", "A")], "Orb");
    lab.AddItem(Item("Orb", "An"));
    pub.AddItem(Item("Beamer", "A"));
  }
}
