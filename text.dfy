/**
 * String helpers shared by the game: ASCII lower-casing (the model of Java's
 * `toLowerCase` on the names used here), decimal rendering of integers (the
 * model of Java's `"" + int`) and the "a, b and c" listing used when items
 * are shown to the player.
 */
module Text {

  /** Lower-cases one ASCII upper-case letter; every other character is kept. */
  function LowerChar(c: char): char
  {
    if 'A' <= c <= 'Z' then (c as int + 32) as char else c
  }

  /** `s.toLowerCase()`, restricted to ASCII letters. */
  function Lower(s: string): (r: string)
    ensures |r| == |s|
    decreases |s|
  {
    if s == [] then [] else [LowerChar(s[0])] + Lower(s[1..])
  }

  /** `a.toLowerCase().equals(b.toLowerCase())` */
  predicate EqualsIgnoreCase(a: string, b: string)
  {
    Lower(a) == Lower(b)
  }

  /** A word with no upper-case letter is its own lower-case form. */
  lemma {:induction false} LowerOfLowerCase(s: string)
    requires forall i :: 0 <= i < |s| ==> !('A' <= s[i] <= 'Z')
    ensures Lower(s) == s
    decreases |s|
  {
    if s != [] {
      LowerOfLowerCase(s[1..]);
    }
  }

  predicate IsDigit(c: char)
  {
    '0' <= c <= '9'
  }

  function DigitChar(d: nat): (c: char)
    requires d < 10
  {
    ('0' as int + d) as char
  }

  /** The decimal digits of `n`, most significant first, without leading zeros. */
  function Decimal(n: nat): (r: string)
    ensures |r| >= 1
    ensures forall i :: 0 <= i < |r| ==> IsDigit(r[i])
    ensures r[0] == '0' ==> n == 0
    decreases n
  {
    if n < 10 then [DigitChar(n)] else Decimal(n / 10) + [DigitChar(n % 10)]
  }

  /** The number a string of decimal digits denotes. */
  function DigitsValue(s: string): nat
    requires forall i :: 0 <= i < |s| ==> IsDigit(s[i])
    decreases |s|
  {
    if s == [] then 0
    else
      assert IsDigit(s[|s| - 1]);
      DigitsValue(s[..|s| - 1]) * 10 + (s[|s| - 1] as int - '0' as int)
  }

  /** Reading the digits back yields the number that was rendered. */
  lemma {:induction false} DecimalRoundTrip(n: nat)
    ensures DigitsValue(Decimal(n)) == n
    decreases n
  {
    if n >= 10 {
      DecimalRoundTrip(n / 10);
      var r := Decimal(n);
      assert r[..|r| - 1] == Decimal(n / 10);
    }
  }

  /** Java's rendering of an `int` inside a string concatenation. */
  function IntToString(i: int): (r: string)
    ensures |r| >= 1 && (i < 0 <==> r[0] == '-')
  {
    if i < 0 then "-" + Decimal(-i) else Decimal(i)
  }

  /** Regrouping a concatenation (used to keep accumulator loops' invariants cheap). */
  lemma ConcatAssoc<T>(a: seq<T>, b: seq<T>, c: seq<T>)
    ensures a + b + c == a + (b + c)
  {
  }

  /** The items joined by ", ". */
  function CommaList(ts: seq<string>): string
    requires |ts| >= 1
    decreases |ts|
  {
    if |ts| == 1 then ts[0] else CommaList(ts[..|ts| - 1]) + ", " + ts[|ts| - 1]
  }

  /** "a", "a and b", "a, b and c": all but the last joined by ", ", then " and " before the last. */
  function Listing(ts: seq<string>): string
    requires |ts| >= 1
  {
    if |ts| == 1 then ts[0] else CommaList(ts[..|ts| - 1]) + " and " + ts[|ts| - 1]
  }

  /** The sentence shown for a list: `nothing` when it is empty, else `subject` + listing + ".". */
  function Sentence(subject: string, nothing: string, ts: seq<string>): string
  {
    if ts == [] then nothing else subject + Listing(ts) + "."
  }

  /** Extending a prefix of the entries by one more entry extends its comma list by ", " and that entry. */
  lemma CommaListStep(ts: seq<string>, i: nat)
    requires 1 <= i < |ts|
    ensures CommaList(ts[..i + 1]) == CommaList(ts[..i]) + ", " + ts[i]
  {
    assert ts[..i + 1][..i] == ts[..i];
  }

  /** A comma list begins with its first entry. */
  lemma {:induction false} CommaListStartsWithFirst(ts: seq<string>)
    requires |ts| >= 1
    ensures ts[0] <= CommaList(ts)
    decreases |ts|
  {
    if |ts| > 1 {
      CommaListStartsWithFirst(ts[..|ts| - 1]);
    }
  }

  /**
   * A listing of two or more entries begins with the first entry and ends
   * with " and " followed by the last.
   */
  lemma ListingShape(ts: seq<string>)
    requires |ts| >= 2
    ensures ts[0] <= Listing(ts)
    ensures var l := Listing(ts); var tail := " and " + ts[|ts| - 1];
      |tail| <= |l| && l[|l| - |tail|..] == tail
  {
    CommaListStartsWithFirst(ts[..|ts| - 1]);
  }
}
