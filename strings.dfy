/** Searching in strings and recognising text at a position. */
module Strings {

  /** The first position at or after `i` that holds `c`, or `|s|` when there is none. */
  function IndexFrom(s: string, i: nat, c: char): (j: nat)
    requires i <= |s|
    ensures i <= j <= |s|
    ensures forall k :: i <= k < j ==> s[k] != c
    ensures j < |s| ==> s[j] == c
    decreases |s| - i
  {
    if i == |s| || s[i] == c then i else IndexFrom(s, i + 1, c)
  }

  /** `s` holds `w` starting at position `i`. */
  predicate HasAt(s: string, i: nat, w: string)
  {
    i + |w| <= |s| && s[i..i + |w|] == w
  }

  lemma HasAtParts(a: string, b: string)
    ensures HasAt(a + b, 0, a) && HasAt(a + b, |a|, b)
  {
    assert (a + b)[..|a|] == a;
    assert (a + b)[|a|..|a| + |b|] == b;
  }

  lemma HasAtSplit(s: string, i: nat, u: string, v: string)
    requires HasAt(s, i, u + v)
    ensures HasAt(s, i, u) && HasAt(s, i + |u|, v)
  {
    assert s[i..i + |u|] == s[i..i + |u| + |v|][..|u|];
    assert s[i + |u|..i + |u| + |v|] == s[i..i + |u| + |v|][|u|..];
  }

  lemma HasAtChar(s: string, i: nat, w: string, k: nat)
    requires HasAt(s, i, w) && k < |w|
    ensures s[i + k] == w[k]
  {
    assert s[i..i + |w|][k] == s[i + k];
  }
}
