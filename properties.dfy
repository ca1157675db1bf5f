/**
 * What the game engine promises, stated over the functions of `GameModel`:
 * refused moves change nothing, keys are used up before the clock is looked
 * at, teleports are free, the beamer and the Orb behave as the commands
 * say, the `play` loop stops only on a bare "quit", and some facts hold for
 * every run: rooms are never locked again, the exits never change, and the
 * day never rolls over.
 */
module GameProperties {
  import opened Wrappers
  import opened Text
  import opened Items
  import opened Rooms
  import opened Commands
  import opened GameModel

  // ---------------------------------------------------------------- go

  /** A move that gets past the door always uses an hour: the clock after it differs from the clock before. */
  lemma AdvanceChangesHour(s: Snapshot, next: Room)
    ensures Advance(s, next).state.hour != s.hour
  {
    if s.hour + 1 > MaxHours && s.day < MaxDays {
      assert (s.hour + 1) % MaxHours < MaxHours <= s.hour;
    }
  }

  /**
   * `go` leaves the game exactly as it was if and only if it is refused:
   * there is no direction, no door that way, or the door is locked and no
   * key is held. A refused move prints one line.
   */
  lemma GoRefused(s: Snapshot, direction: Option<string>)
    ensures Go(s, direction).state == s <==>
      direction.None? || ExitOf(s, s.current, direction.value).None? ||
      (IsLocked(s, ExitOf(s, s.current, direction.value).value) && LastNamed(s.inventory, "key").None?)
    ensures Go(s, direction).state == s ==> |Go(s, direction).lines| == 1
  {
    if direction.Some? && ExitOf(s, s.current, direction.value).Some? {
      var next := ExitOf(s, s.current, direction.value).value;
      if IsLocked(s, next) && LastNamed(s.inventory, "key").Some? {
        var t := Unlock(s, next).value;
        AdvanceChangesHour(t, next);
      } else if !IsLocked(s, next) {
        AdvanceChangesHour(s, next);
      }
    }
  }

  /**
   * At a locked door with a key held, the last key in the inventory is used
   * up and the door is unlocked, even when the same move then ends the game.
   */
  lemma KeyUsedBeforeTimeCheck(s: Snapshot, next: Room)
    requires IsLocked(s, next)
    requires LastNamed(s.inventory, "key").Some?
    ensures var k := LastNamed(s.inventory, "key").value;
      var t := GoThrough(s, next).state;
      Lower(s.inventory[k].name) == "key" &&
      t.inventory == s.inventory[..k] + s.inventory[k + 1..] &&
      multiset(t.inventory) + multiset{s.inventory[k]} == multiset(s.inventory) &&
      !IsLocked(t, next) &&
      (forall r :: r != next ==> (IsLocked(t, r) <==> IsLocked(s, r))) &&
      (s.hour + 1 > MaxHours && s.day >= MaxDays ==> t.finished && t.current == s.current)
  {
    var k := LastNamed(s.inventory, "key").value;
    assert s.inventory == s.inventory[..k] + [s.inventory[k]] + s.inventory[k + 1..];
    MoveTakesAnHour(Unlock(s, next).value, next);
  }

  /**
   * A move past the door takes exactly one hour. Past the last hour of the
   * last day the game is finished and the player stays; past the last hour
   * of an earlier day the hour wraps and the next day begins; otherwise the
   * player arrives. No case touches the inventory, the locks or the items.
   */
  lemma MoveTakesAnHour(s: Snapshot, next: Room)
    ensures var t := Advance(s, next).state;
      t.inventory == s.inventory && t.locked == s.locked && t.items == s.items && t.beam == s.beam &&
      (s.hour + 1 > MaxHours && s.day >= MaxDays ==>
         t.finished && t.current == s.current && t.hour == s.hour + 1 && t.day == s.day) &&
      (s.hour + 1 > MaxHours && s.day < MaxDays ==>
         t.current == next && t.hour == (s.hour + 1) % MaxHours && t.day == s.day + 1) &&
      (s.hour + 1 <= MaxHours ==> t.current == next && t.hour == s.hour + 1 && t.day == s.day)
  {
  }

  // ---------------------------------------------------------------- beamer

  /** Without a beamer, `beam` and `charge` change nothing. */
  lemma NoBeamerNoChange(s: Snapshot)
    requires LastNamed(s.inventory, "beamer").None?
    ensures Beam(s).state == s && Charge(s).state == s
  {
  }

  /** With a beamer, `charge` in another room than the charged one makes the current room the charged one, and nothing else. */
  lemma ChargeSetsBeamRoom(s: Snapshot)
    requires LastNamed(s.inventory, "beamer").Some? && s.beam != s.current
    ensures Charge(s).state == s.(beam := s.current)
  {
  }

  /**
   * With a beamer, `beam` outside the charged room takes the player there
   * and changes nothing else: no time passes and no lock is checked.
   */
  lemma BeamIsFree(s: Snapshot)
    requires LastNamed(s.inventory, "beamer").Some? && s.beam != s.current
    ensures Beam(s).state == s.(current := s.beam)
  {
  }

  /** A beamer held before `go` is held after it: the only item `go` takes away is one named "key". */
  lemma GoKeepsBeamer(s: Snapshot, direction: Option<string>)
    requires LastNamed(s.inventory, "beamer").Some?
    ensures LastNamed(Go(s, direction).state.inventory, "beamer").Some?
  {
    var inventory := s.inventory;
    var j := LastNamed(inventory, "beamer").value;
    if direction.Some? && ExitOf(s, s.current, direction.value).Some? {
      var next := ExitOf(s, s.current, direction.value).value;
      if IsLocked(s, next) && Unlock(s, next).Some? {
        var k := LastNamed(inventory, "key").value;
        MoveTakesAnHour(Unlock(s, next).value, next);
        var left := Go(s, direction).state.inventory;
        assert left == inventory[..k] + inventory[k + 1..];
        var i := if j < k then j else j - 1;
        assert left[i] == inventory[j];
      } else if !IsLocked(s, next) {
        MoveTakesAnHour(s, next);
      }
    }
  }

  /** A beamer held before `pickup` is held after it: picking up only adds to the inventory. */
  lemma PickupKeepsBeamer(s: Snapshot, name: string)
    requires LastNamed(s.inventory, "beamer").Some?
    ensures LastNamed(Pickup(s, name).state.inventory, "beamer").Some?
  {
    var j := LastNamed(s.inventory, "beamer").value;
    assert Pickup(s, name).state.inventory[j] == s.inventory[j];
  }

  /** Once held, a beamer stays held, whatever the command. */
  lemma StepKeepsBeamer(s: Snapshot, c: Command)
    requires LastNamed(s.inventory, "beamer").Some?
    ensures LastNamed(Step(s, c).state.inventory, "beamer").Some?
  {
    if c.Known? && VerbOf(c.word) == GoWord {
      GoKeepsBeamer(s, c.second);
    } else if c.Known? && VerbOf(c.word) == PickupWord && c.second.Some? {
      PickupKeepsBeamer(s, c.second.value);
    } else {
      StepChanges(s, c);
    }
  }

  /**
   * With a beamer, `charge`, then any one command, then `beam` brings the
   * player back to the room charged in (a second `charge` in between finds
   * the beamer already charged with the player's room). The `beam` itself
   * moves the clock and the inventory not at all.
   */
  lemma ChargeThenBeam(s: Snapshot, a: Option<string>, c: Command, b: Option<string>)
    requires LastNamed(s.inventory, "beamer").Some?
    ensures var t := Step(s, Known("charge", a)).state;
      var u := Step(t, c).state;
      var v := Step(u, Known("beam", b)).state;
      v.current == s.current && v.hour == u.hour && v.day == u.day && v.inventory == u.inventory
  {
    var t := Step(s, Known("charge", a)).state;
    assert t == Charge(s).state;
    assert t.beam == s.current && t.inventory == s.inventory;
    var u := Step(t, c).state;
    if c.Known? && VerbOf(c.word) == ChargeWord {
      assert u == t;
    } else {
      StepInvariants(t, c, s.current);
    }
    assert u.beam == s.current;
    StepKeepsBeamer(t, c);
    BeamReturns(u, b);
  }

  /** With a beamer, `beam` ends in the charged room, whether or not the player was already there, and uses no time. */
  lemma BeamReturns(u: Snapshot, b: Option<string>)
    requires LastNamed(u.inventory, "beamer").Some?
    ensures var v := Step(u, Known("beam", b)).state;
      v.current == u.beam && v.hour == u.hour && v.day == u.day && v.inventory == u.inventory
  {
    assert Step(u, Known("beam", b)) == Beam(u);
  }

  /** Once held, a beamer stays held for the rest of a `play` run. */
  lemma {:induction false} PlayKeepsBeamer(s: Snapshot, cs: seq<Command>)
    requires LastNamed(s.inventory, "beamer").Some?
    ensures LastNamed(Play(s, cs).state.inventory, "beamer").Some?
    decreases |cs|
  {
    if cs != [] {
      StepKeepsBeamer(s, cs[0]);
      var t := PlayTurn(s, cs[0]);
      if !t.finished {
        PlayKeepsBeamer(t, cs[1..]);
      }
    }
  }

  // ---------------------------------------------------------------- pickup

  /** `pickup` without a second word falls through every branch of `processCommand`: nothing changes and nothing is printed. */
  lemma PickupWithoutItem(s: Snapshot)
    ensures Step(s, Known("pickup", None)) == Outcome(s, false, [])
  {
  }

  /** `pickup` of an item that is not in the room changes nothing. */
  lemma PickupMissing(s: Snapshot, name: string)
    requires Lookup(ItemsIn(s, s.current), name).None?
    ensures Pickup(s, name) == Outcome(s, false, [Tell(NoSuchItem)])
  {
  }

  /**
   * Picking up the Orb sends the player outside and moves nothing: the Orb
   * stays in its room and out of the inventory, and the clock does not move.
   */
  lemma OrbTeleportsOutside(s: Snapshot, name: string)
    requires Lookup(ItemsIn(s, s.current), name).Some?
    requires Lower(Lookup(ItemsIn(s, s.current), name).value.name) == "orb"
    ensures Pickup(s, name).state == s.(current := s.outside)
  {
  }

  /**
   * Picking up any other item moves it from the room to the end of the
   * inventory: the item found is the one taken out of the room, the other
   * items of the room keep their order, and nothing else changes.
   */
  lemma PickupMovesItem(s: Snapshot, name: string)
    requires Lookup(ItemsIn(s, s.current), name).Some?
    requires Lower(Lookup(ItemsIn(s, s.current), name).value.name) != "orb"
    ensures var here := ItemsIn(s, s.current);
      var item := Lookup(here, name).value;
      var t := Pickup(s, name).state;
      t.inventory == s.inventory + [item] &&
      (exists i :: 0 <= i < |here| && here[i] == item && ItemsIn(t, s.current) == here[..i] + here[i + 1..]) &&
      multiset(ItemsIn(t, s.current)) + multiset{item} == multiset(here) &&
      (forall r :: r != s.current ==> ItemsIn(t, r) == ItemsIn(s, r)) &&
      t == s.(items := t.items, inventory := t.inventory)
  {
    var here := ItemsIn(s, s.current);
    RemoveFoundItem(here, name);
  }

  // ---------------------------------------------------------------- inventory

  /** The `inventory` command prints the inventory text and changes nothing. */
  lemma InventoryChangesNothing(s: Snapshot, second: Option<string>)
    ensures Step(s, Known("inventory", second)) == Outcome(s, false, [Inventory(s.inventory)])
  {
  }

  /**
   * The inventory text: a fixed line for an empty inventory, "You have a
   * key." for one item, and for more the first item after "You have ",
   * " and " before the last, a full stop at the end.
   */
  lemma InventoryTextCases(inventory: seq<Item>)
    ensures inventory == [] ==> InventoryText(inventory) == EmptyInventory
    ensures |inventory| == 1 ==>
      InventoryText(inventory) == "You have " + Lower(inventory[0].NameWithPrefix()) + "."
    ensures |inventory| >= 2 ==>
      var text := InventoryText(inventory);
      var first := "You have " + Lower(inventory[0].NameWithPrefix());
      var last := " and " + Lower(inventory[|inventory| - 1].NameWithPrefix()) + ".";
      first <= text && |last| <= |text| && text[|text| - |last|..] == last
  {
    if |inventory| >= 2 {
      var shown := Shown(inventory);
      ListingShape(shown);
      var l := Listing(shown);
      var text := InventoryText(inventory);
      assert text == "You have " + l + ".";
      var tail := " and " + shown[|shown| - 1];
      assert text[|text| - |tail + "."|..] == l[|l| - |tail|..] + ".";
    }
  }

  // ---------------------------------------------------------------- quit and the play loop

  /** A game-ending move does not stop the `play` loop: `processCommand` returns false for it, and that is what `finished` becomes. */
  lemma TimeLimitDoesNotStopPlay(s: Snapshot, direction: Option<string>)
    requires Go(s, direction).state.finished
    ensures !PlayTurn(s, Known("go", direction)).finished
  {
    StepQuits(s, Known("go", direction));
  }

  /**
   * The `play` loop reads commands up to and including the first bare
   * "quit", or all of them when there is none.
   */
  lemma {:induction false} PlayStopsOnlyAtQuit(s: Snapshot, cs: seq<Command>)
    ensures var n := Play(s, cs).read;
      (forall i :: 0 <= i < n - 1 ==> cs[i] != Known("quit", None)) &&
      (n == |cs| || cs[n - 1] == Known("quit", None))
    decreases |cs|
  {
    if cs != [] {
      StepQuits(s, cs[0]);
      var t := PlayTurn(s, cs[0]);
      if !t.finished {
        PlayStopsOnlyAtQuit(t, cs[1..]);
        NoQuitBefore(cs, Play(t, cs[1..]).read);
      }
    }
  }

  /** No bare "quit" among the first `m` commands after the first, nor first: none among the first `m + 1`. */
  lemma NoQuitBefore(cs: seq<Command>, m: nat)
    requires m < |cs| && cs[0] != Known("quit", None)
    requires forall i :: 0 <= i < m - 1 ==> cs[1..][i] != Known("quit", None)
    ensures forall i :: 0 <= i < m ==> cs[i] != Known("quit", None)
  {
    forall i | 0 < i < m
      ensures cs[i] != Known("quit", None)
    {
      assert cs[i] == cs[1..][i - 1];
    }
  }

  // ---------------------------------------------------------------- invariants of every run

  /** The clock as it stands in every reachable state: the first day, from hour 1 on. */
  predicate ClockHolds(s: Snapshot)
  {
    s.day == MaxDays && s.hour >= 1
  }

  /**
   * Only `go`, `pickup <item>`, `beam` and `charge` change the game; help,
   * examine, inventory, time, quit, unknown and unrecognised commands leave
   * it as it was.
   */
  lemma StepChanges(s: Snapshot, c: Command)
    ensures Step(s, c).state ==
      if c.Unknown? then s
      else if c.word == "go" then Go(s, c.second).state
      else if c.word == "pickup" && c.second.Some? then Pickup(s, c.second.value).state
      else if c.word == "beam" then Beam(s).state
      else if c.word == "charge" then Charge(s).state
      else s
  {
  }

  /**
   * What no command does: lock a room, change an exit or the outside, or,
   * once the clock holds, turn the clock back or into a second day.
   */
  predicate Preserves(s: Snapshot, t: Snapshot, r: Room)
  {
    (IsLocked(t, r) ==> IsLocked(s, r)) && t.exits == s.exits && t.outside == s.outside &&
    (ClockHolds(s) ==> ClockHolds(t) && t.hour >= s.hour)
  }

  /** The beamer's room moves only by a `charge` command, and then to the room the player is in. */
  predicate BeamMovedBy(s: Snapshot, c: Command, t: Snapshot)
  {
    t.beam != s.beam ==> c.Known? && c.word == "charge" && t.beam == s.current
  }

  /** `go` keeps the invariants and the beamer's room. */
  lemma GoPreserves(s: Snapshot, direction: Option<string>, r: Room)
    ensures Preserves(s, Go(s, direction).state, r) && Go(s, direction).state.beam == s.beam
  {
    if direction.Some? && ExitOf(s, s.current, direction.value).Some? {
      var next := ExitOf(s, s.current, direction.value).value;
      if IsLocked(s, next) && Unlock(s, next).Some? {
        MoveTakesAnHour(Unlock(s, next).value, next);
      } else {
        MoveTakesAnHour(s, next);
      }
    }
  }

  /** `pickup` keeps the invariants and the beamer's room. */
  lemma PickupPreserves(s: Snapshot, name: string, r: Room)
    ensures Preserves(s, Pickup(s, name).state, r) && Pickup(s, name).state.beam == s.beam
  {
  }

  // One lemma per branch of `processCommand`, so that each sees only its own branch.

  lemma StepGoPreserves(s: Snapshot, c: Command, r: Room)
    requires c.Known? && VerbOf(c.word) == GoWord
    ensures Preserves(s, Step(s, c).state, r) && BeamMovedBy(s, c, Step(s, c).state)
  {
    GoPreserves(s, c.second, r);
  }

  lemma StepPickupPreserves(s: Snapshot, c: Command, r: Room)
    requires c.Known? && VerbOf(c.word) == PickupWord
    ensures Preserves(s, Step(s, c).state, r) && BeamMovedBy(s, c, Step(s, c).state)
  {
    if c.second.Some? {
      PickupPreserves(s, c.second.value, r);
    }
  }

  lemma StepBeamPreserves(s: Snapshot, c: Command, r: Room)
    requires c.Known? && VerbOf(c.word) == BeamWord
    ensures Preserves(s, Step(s, c).state, r) && BeamMovedBy(s, c, Step(s, c).state)
  {
  }

  lemma StepChargePreserves(s: Snapshot, c: Command, r: Room)
    requires c.Known? && VerbOf(c.word) == ChargeWord
    ensures Preserves(s, Step(s, c).state, r) && BeamMovedBy(s, c, Step(s, c).state)
  {
  }

  lemma StepOthersPreserve(s: Snapshot, c: Command, r: Room)
    requires c.Known? ==> VerbOf(c.word) !in {GoWord, PickupWord, BeamWord, ChargeWord}
    ensures Preserves(s, Step(s, c).state, r) && BeamMovedBy(s, c, Step(s, c).state)
  {
  }

  /**
   * No command locks a room, changes an exit or turns the clock back, and
   * only `charge` moves the beamer's room. With one day only, the clock
   * stays on day 1, so the day-rollover branch of `goRoom` is never taken.
   */
  lemma StepInvariants(s: Snapshot, c: Command, r: Room)
    ensures Preserves(s, Step(s, c).state, r) && BeamMovedBy(s, c, Step(s, c).state)
  {
    if c.Unknown? {
      StepOthersPreserve(s, c, r);
    } else if VerbOf(c.word) == GoWord {
      StepGoPreserves(s, c, r);
    } else if VerbOf(c.word) == PickupWord {
      StepPickupPreserves(s, c, r);
    } else if VerbOf(c.word) == BeamWord {
      StepBeamPreserves(s, c, r);
    } else if VerbOf(c.word) == ChargeWord {
      StepChargePreserves(s, c, r);
    } else {
      StepOthersPreserve(s, c, r);
    }
  }

  /** The same for a whole `play` run: a room once unlocked stays unlocked, the exits stay, the clock holds. */
  lemma {:induction false} PlayInvariants(s: Snapshot, cs: seq<Command>, r: Room)
    ensures Preserves(s, Play(s, cs).state, r)
    decreases |cs|
  {
    if cs != [] {
      StepInvariants(s, cs[0], r);
      var t := PlayTurn(s, cs[0]);
      if !t.finished {
        PlayInvariants(t, cs[1..], r);
      }
    }
  }
}
