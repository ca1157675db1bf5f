/**
 * Room.java: one location of the world. A room has a fixed description, a
 * map from direction names to neighbouring rooms, a lock flag, and the items
 * currently lying in it, in the order they were added.
 */
module Rooms {
  import opened Wrappers
  import opened Text
  import opened Items

  /** Some item in `items` has exactly (case-sensitively) the name `name`. */
  predicate HasName(items: seq<Item>, name: string)
  {
    exists i :: 0 <= i < |items| && items[i].name == name
  }

  /** No two items share a name. */
  predicate DistinctNames(items: seq<Item>)
  {
    forall i, j :: 0 <= i < j < |items| ==> items[i].name != items[j].name
  }

  /** The item list after `addItem(item)`: unchanged when the name is taken, else `item` appended. */
  function WithItem(items: seq<Item>, item: Item): seq<Item>
  {
    if HasName(items, item.name) then items else items + [item]
  }

  /** The index of the first item named exactly `name`. */
  function IndexOfName(items: seq<Item>, name: string): (r: Option<nat>)
    ensures r.Some? ==> r.value < |items| && items[r.value].name == name
    ensures r.Some? ==> forall j :: 0 <= j < r.value ==> items[j].name != name
    ensures r.None? <==> !HasName(items, name)
    decreases |items|
  {
    if items == [] then None
    else if items[0].name == name then Some(0)
    else match IndexOfName(items[1..], name)
      case None => None
      case Some(k) => Some(k + 1)
  }

  /** The item list after `removeItem(name)`: the first exact match is taken out. */
  function RemoveFirst(items: seq<Item>, name: string): seq<Item>
  {
    match IndexOfName(items, name)
    case None => items
    case Some(i) => items[..i] + items[i + 1..]
  }

  /** The index of the first item whose name equals `name` ignoring case. */
  function IndexIgnoringCase(items: seq<Item>, name: string): (r: Option<nat>)
    ensures r.Some? ==> r.value < |items| && EqualsIgnoreCase(items[r.value].name, name)
    ensures r.Some? ==> forall j :: 0 <= j < r.value ==> !EqualsIgnoreCase(items[j].name, name)
    ensures r.None? ==> forall j :: 0 <= j < |items| ==> !EqualsIgnoreCase(items[j].name, name)
    decreases |items|
  {
    if items == [] then None
    else if EqualsIgnoreCase(items[0].name, name) then Some(0)
    else match IndexIgnoringCase(items[1..], name)
      case None => None
      case Some(k) => Some(k + 1)
  }

  /** What `getItem(name)` returns: the first case-insensitive match, or nothing. */
  function Lookup(items: seq<Item>, name: string): Option<Item>
  {
    match IndexIgnoringCase(items, name)
    case None => None
    case Some(i) => Some(items[i])
  }

  /** The text `examine` prints for a room holding `items`. */
  function ExamineText(items: seq<Item>): string
  {
    Sentence("You can see ", "There is nothing here!", Shown(items))
  }

  /** The exit a map of exits holds for `direction`, or None. */
  function ExitIn(exits: map<string, Room>, direction: string): Option<Room>
  {
    if direction in exits then Some(exits[direction]) else None
  }

  /**
   * After `setExit(direction, neighbor)`, `getExit(direction)` is `neighbor`
   * and every other direction gives what it gave before; a room without
   * exits gives None for every direction.
   */
  lemma ExitAfterSetExit(exits: map<string, Room>, direction: string, neighbor: Room, d: string)
    ensures ExitIn(exits[direction := neighbor], d) ==
            if d == direction then Some(neighbor) else ExitIn(exits, d)
    ensures ExitIn(map[], d) == None
  {
  }

  /** `order` lists every key of `keys` exactly once. */
  ghost predicate IsEnumeration(order: seq<string>, keys: set<string>)
  {
    (forall i, j :: 0 <= i < j < |order| ==> order[i] != order[j]) &&
    (forall d :: d in order <==> d in keys)
  }

  /** " d1 d2 ... dn": each direction preceded by one space. */
  function Spaced(order: seq<string>): string
    decreases |order|
  {
    if order == [] then "" else Spaced(order[..|order| - 1]) + " " + order[|order| - 1]
  }

  /** The exit string for directions listed in `order`: "" for none, else "Exits:" + the spaced list. */
  function ExitText(order: seq<string>): string
  {
    if order == [] then "" else "Exits:" + Spaced(order)
  }

  /**
   * `text` is a long description of a room described `description` with
   * exits `exits`: the directions may come in any order (a HashMap's key
   * order is unspecified), but each appears exactly once.
   */
  ghost predicate DescribesRoom(description: string, exits: map<string, Room>, text: string)
  {
    exists order :: IsEnumeration(order, exits.Keys) &&
      text == "You are " + description + ".\n" + ExitText(order)
  }

  /**
   * The list sentence built by `examine` and, with other words, by the
   * `inventory` command of the game:
   * `nothing` for no items, otherwise `subject` followed by the shown items,
   * ", " between all but the last two, " and " before the last, and ".".
   */
  method Describe(subject: string, nothing: string, items: seq<Item>) returns (text: string)
    ensures text == Sentence(subject, nothing, Shown(items))
  {
    var n := |items|;
    if n == 0 {
      return nothing;
    }
    ghost var ts := Shown(items);
    text := subject;
    if n == 1 {
      var shown := Lower(items[0].NameWithPrefix());
      assert shown == ts[0];
      text := text + shown;
    } else {
      // `listed` is what the loop has appended to `subject` so far
      ghost var listed := "";
      for i := 0 to n - 1
        invariant i == 0 ==> listed == ""
        invariant i > 0 ==> listed == CommaList(ts[..i]) + (if i < n - 1 then ", " else " and ")
        invariant text == subject + listed
      {
        var shown := Lower(items[i].NameWithPrefix());
        assert shown == ts[i];
        ghost var sep := if i + 1 < n - 1 then ", " else " and ";
        ConcatAssoc(subject, listed, shown);
        ConcatAssoc(subject, listed + shown, sep);
        if i > 0 {
          CommaListStep(ts, i);
          ConcatAssoc(CommaList(ts[..i]) + ", ", shown, sep);
        } else {
          assert CommaList(ts[..1]) == ts[0];
        }
        listed := listed + shown + sep;
        text := text + shown;
        if i + 1 < n - 1 {
          text := text + ", ";
        } else {
          text := text + " and ";
        }
      }
      assert ts[..n - 1] == ts[..|ts| - 1];
      var last := Lower(items[n - 1].NameWithPrefix());
      ConcatAssoc(subject, listed, last);
      text := text + last;
    }
    ConcatAssoc(subject, Listing(ts), ".");
    text := text + ".";
  }

  class Room {
    const description: string
    var exits: map<string, Room>
    var locked: bool
    var items: seq<Item>

    /** A new room has no exits, is unlocked and holds no items. */
    constructor (description: string)
      ensures this.description == description
      ensures exits == map[] && !locked && items == []
    {
      this.description := description;
      exits := map[];
      locked := false;
      items := [];
    }

    /** Appends `item` unless an item of the same (case-sensitive) name is already here. */
    method AddItem(item: Item)
      modifies this
      ensures items == WithItem(old(items), item)
      ensures exits == old(exits) && locked == old(locked)
    {
      for k := 0 to |items|
        invariant forall j :: 0 <= j < k ==> items[j].name != item.name
      {
        if items[k].name == item.name {
          return;
        }
      }
      items := items + [item];
    }

    /** Removes the first item named exactly `name`; nothing happens when there is none. */
    method RemoveItem(name: string)
      modifies this
      ensures items == RemoveFirst(old(items), name)
      ensures exits == old(exits) && locked == old(locked)
    {
      var i := 0;
      while i < |items|
        invariant 0 <= i <= |items| && items == old(items)
        invariant forall j :: 0 <= j < i ==> items[j].name != name
      {
        if items[i].name == name {
          items := items[..i] + items[i + 1..];
          break;
        }
        i := i + 1;
      }
    }

    /** The first item whose name matches `name` ignoring case, or None. */
    method GetItem(name: string) returns (r: Option<Item>)
      ensures r == Lookup(items, name)
    {
      for k := 0 to |items|
        invariant forall j :: 0 <= j < k ==> !EqualsIgnoreCase(items[j].name, name)
      {
        if Lower(items[k].name) == Lower(name) {
          return Some(items[k]);
        }
      }
      return None;
    }

    /** Registers (or replaces) the exit in `direction`; every other direction is kept. */
    method SetExit(direction: string, neighbor: Room)
      modifies this
      ensures exits == old(exits)[direction := neighbor]
      ensures locked == old(locked) && items == old(items)
    {
      exits := exits[direction := neighbor];
    }

    /** The neighbour in `direction`, or None when no exit was set for it. */
    function GetExit(direction: string): (r: Option<Room>)
      reads this
      ensures r.Some? <==> direction in exits
      ensures r.Some? ==> r.value == exits[direction]
    {
      ExitIn(exits, direction)
    }

    method SetLocked(value: bool)
      modifies this
      ensures GetLocked() == value
      ensures exits == old(exits) && items == old(items)
    {
      locked := value;
    }

    /** Whether the room is locked: the value `SetLocked` was last given, or false for a new room. */
    function GetLocked(): (r: bool)
      reads this
      ensures r == locked
    {
      locked
    }

    /** "You are " + description + ".\n" + the exit string. */
    method GetLongDescription() returns (text: string)
      ensures DescribesRoom(description, exits, text)
    {
      var exitText;
      ghost var order;
      exitText, order := GetExitString();
      text := "You are " + description + ".\n" + exitText;
    }

    /**
     * "" when there are no exits, otherwise "Exits:" followed by " " and a
     * direction for each exit. The directions are taken in an unspecified
     * order, as a HashMap's key set gives them; `order` records the one taken.
     */
    method GetExitString() returns (text: string, ghost order: seq<string>)
      ensures IsEnumeration(order, exits.Keys)
      ensures text == ExitText(order)
    {
      order := [];
      if |exits| == 0 {
        return "", order;
      }
      text := "Exits:";
      var keys := exits.Keys;
      while keys != {}
        invariant keys <= exits.Keys
        invariant forall d :: d in exits.Keys <==> d in keys || d in order
        invariant forall d :: d in keys ==> d !in order
        invariant forall i, j :: 0 <= i < j < |order| ==> order[i] != order[j]
        invariant text == "Exits:" + Spaced(order)
        invariant order == [] ==> keys == exits.Keys
        decreases keys
      {
        var d :| d in keys;
        ConcatAssoc("Exits:", Spaced(order), " ");
        ConcatAssoc("Exits:", Spaced(order) + " ", d);
        assert (order + [d])[..|order|] == order;
        text := text + " " + d;
        order := order + [d];
        keys := keys - {d};
      }
    }

    /** The sentence `examine` prints: the room's items, lower-cased and listed. */
    method Examine() returns (text: string)
      ensures text == ExamineText(items)
    {
      text := Describe("You can see ", "There is nothing here!", items);
    }
  }

  /** Adding an item keeps the names in a room pairwise distinct. */
  lemma WithItemKeepsDistinct(items: seq<Item>, item: Item)
    requires DistinctNames(items)
    ensures DistinctNames(WithItem(items, item))
  {
    if !HasName(items, item.name) {
      var r := items + [item];
      forall i, j | 0 <= i < j < |r|
        ensures r[i].name != r[j].name
      {
        if j == |items| {
          assert r[i] == items[i];
        }
      }
    }
  }

  /** Adding the same item twice is the same as adding it once. */
  lemma WithItemIdempotent(items: seq<Item>, item: Item)
    ensures WithItem(WithItem(items, item), item) == WithItem(items, item)
  {
    if !HasName(items, item.name) {
      var r := items + [item];
      assert r[|items|].name == item.name;
    }
  }

  /**
   * `removeItem` takes out exactly one occurrence of the first match and
   * keeps every other item, in order; it leaves the list alone when nothing matches.
   */
  lemma RemoveFirstSpec(items: seq<Item>, name: string)
    ensures !HasName(items, name) ==> RemoveFirst(items, name) == items
    ensures HasName(items, name) ==>
      |RemoveFirst(items, name)| == |items| - 1 &&
      exists i :: 0 <= i < |items| && items[i].name == name &&
        (forall j :: 0 <= j < i ==> items[j].name != name) &&
        RemoveFirst(items, name) == items[..i] + items[i + 1..] &&
        multiset(RemoveFirst(items, name)) + multiset{items[i]} == multiset(items)
  {
    if HasName(items, name) {
      var i := IndexOfName(items, name).value;
      assert items == items[..i] + [items[i]] + items[i + 1..];
    }
  }

  /**
   * The item `getItem(name)` finds is the one `removeItem(item.getName())`
   * takes out: no earlier item has its exact name, since that one would
   * have matched `name` ignoring case first.
   */
  lemma RemoveFoundItem(items: seq<Item>, name: string)
    requires Lookup(items, name).Some?
    ensures var found := Lookup(items, name).value;
      var i := IndexIgnoringCase(items, name).value;
      RemoveFirst(items, found.name) == items[..i] + items[i + 1..] &&
      multiset(RemoveFirst(items, found.name)) + multiset{found} == multiset(items)
  {
    var i := IndexIgnoringCase(items, name).value;
    var found := items[i];
    assert HasName(items, found.name);
    var k := IndexOfName(items, found.name).value;
    assert k == i;
    assert items == items[..i] + [items[i]] + items[i + 1..];
  }
}
