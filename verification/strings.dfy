/**
 * The string helpers the core relies on: Go's strings.HasPrefix, HasSuffix,
 * TrimPrefix and Join, and utils.SplitByFirstByte from github.com/ije/gox.
 */
module Strings {

  /** s starts with prefix: s is prefix followed by some rest. */
  function HasPrefix(s: string, prefix: string): (b: bool)
    ensures b ==> |prefix| <= |s| && s == prefix + s[|prefix|..]
    ensures !b ==> forall rest :: s != prefix + rest
  {
    |prefix| <= |s| && s[..|prefix|] == prefix
  }

  /** s ends with suffix: s is some init followed by suffix. */
  function HasSuffix(s: string, suffix: string): (b: bool)
    ensures b ==> |suffix| <= |s| && s == s[..|s| - |suffix|] + suffix
    ensures !b ==> forall init :: s != init + suffix
  {
    |suffix| <= |s| && s[|s| - |suffix|..] == suffix
  }

  function TrimPrefix(s: string, prefix: string): (r: string)
    ensures HasPrefix(s, prefix) ==> prefix + r == s
    ensures !HasPrefix(s, prefix) ==> r == s
  {
    if HasPrefix(s, prefix) then s[|prefix|..] else s
  }

  /** The elements of xs with sep between each adjacent pair. */
  function Join(xs: seq<string>, sep: string): (r: string)
    ensures |xs| == 1 ==> r == xs[0]
    ensures |xs| > 1 ==> xs[0] + sep <= r
    decreases |xs|
  {
    if |xs| == 0 then ""
    else if |xs| == 1 then xs[0]
    else xs[0] + sep + Join(xs[1..], sep)
  }

  /**
   * Splits s at the first occurrence of c: the part before it and the part
   * after it, or s and "" when c does not occur.
   */
  function SplitByFirstByte(s: string, c: char): (r: (string, string))
    ensures c !in r.0
    ensures c in s ==> s == r.0 + [c] + r.1
    ensures c !in s ==> r == (s, "")
  {
    if s == [] then (s, "")
    else if s[0] == c then ("", s[1..])
    else
      var (before, after) := SplitByFirstByte(s[1..], c);
      assert s == [s[0]] + s[1..];
      ([s[0]] + before, after)
  }

  /** The split point is unique: any prefix free of c followed by c is the one found. */
  lemma {:induction false} SplitAtFirst(before: string, c: char, after: string)
    requires c !in before
    ensures SplitByFirstByte(before + [c] + after, c) == (before, after)
    decreases |before|
  {
    var s := before + [c] + after;
    if before != [] {
      assert s[0] == before[0] != c;
      assert s[1..] == before[1..] + [c] + after;
      SplitAtFirst(before[1..], c, after);
      assert [before[0]] + before[1..] == before;
    }
  }

  /** The pieces of s between occurrences of c (Go's strings.Split). */
  function Split(s: string, c: char): (r: seq<string>)
    ensures |r| > 0
    decreases |s|
  {
    if c in s then
      var (before, after) := SplitByFirstByte(s, c);
      [before] + Split(after, c)
    else [s]
  }

  /** Splitting a join on its separator gives back the joined texts when none contains it. */
  lemma {:induction false} JoinSplitRoundTrip(xs: seq<string>, c: char)
    requires |xs| > 0
    requires forall i :: 0 <= i < |xs| ==> c !in xs[i]
    ensures Split(Join(xs, [c]), c) == xs
    decreases |xs|
  {
    if |xs| == 1 {
      assert Join(xs, [c]) == xs[0];
    } else {
      var rest := Join(xs[1..], [c]);
      assert Join(xs, [c]) == xs[0] + [c] + rest;
      SplitAtFirst(xs[0], c, rest);
      assert c in Join(xs, [c]) by { assert (xs[0] + [c] + rest)[|xs[0]|] == c; }
      JoinSplitRoundTrip(xs[1..], c);
      assert xs == [xs[0]] + xs[1..];
    }
  }
}
