/**
 * Item.java: an object the player can pick up, a name with a grammatical
 * prefix ("A", "An"). Both fields are set only by the constructor and the
 * class has no setters, so an item is a value: `getName` and `getPrefix`
 * are the datatype's fields.
 */
module Items {
  import opened Text

  datatype Item = Item(name: string, prefix: string) {

    /** `getNameWithPrefix()`: the prefix, one space, then the name. */
    function NameWithPrefix(): (r: string)
      ensures |r| == |prefix| + |name| + 1
      ensures r[..|prefix|] == prefix && r[|prefix|] == ' ' && r[|prefix| + 1..] == name
    {
      prefix + " " + name
    }
  }

  /** Splits a string at its first space into the part before and the part after. */
  function SplitAtSpace(s: string): (string, string)
    decreases |s|
  {
    if s == [] then ([], [])
    else if s[0] == ' ' then ([], s[1..])
    else
      var rest := SplitAtSpace(s[1..]);
      ([s[0]] + rest.0, rest.1)
  }

  /**
   * When the prefix holds no space (as "A" and "An" do), the prefix and the
   * name are recovered from `getNameWithPrefix()`.
   */
  lemma {:induction false} NameWithPrefixSplits(item: Item)
    requires forall i :: 0 <= i < |item.prefix| ==> item.prefix[i] != ' '
    ensures SplitAtSpace(item.NameWithPrefix()) == (item.prefix, item.name)
    decreases |item.prefix|
  {
    var s := item.NameWithPrefix();
    if item.prefix != [] {
      var shorter := Item(item.name, item.prefix[1..]);
      NameWithPrefixSplits(shorter);
      assert s[1..] == shorter.NameWithPrefix();
      assert [item.prefix[0]] + item.prefix[1..] == item.prefix;
    }
  }

  /** The lower-cased `getNameWithPrefix()` of each item, in order: how items are shown. */
  function Shown(items: seq<Item>): seq<string>
  {
    seq(|items|, i requires 0 <= i < |items| => Lower(items[i].NameWithPrefix()))
  }
}
