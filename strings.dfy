/**
 String helpers shared by the forum view model and the forum view:
 `lowercased()` and `localizedCaseInsensitiveContains(_:)`, with case
 folded over ASCII letters.
 */
module Strings {

  /** One character of `lowercased()`: ASCII upper-case letters fold to lower case. */
  function LowerChar(c: char): char
  {
    if 'A' <= c <= 'Z' then (c as int + 32) as char else c
  }

  /** `s.lowercased()`. */
  function Lower(s: string): (r: string)
    ensures |r| == |s|
    ensures forall i :: 0 <= i < |s| ==> r[i] == LowerChar(s[i])
    ensures forall i :: 0 <= i < |r| ==> !('A' <= r[i] <= 'Z')
  {
    seq(|s|, i requires 0 <= i < |s| => LowerChar(s[i]))
  }

  /** Lower-casing an already lower-cased string changes nothing. */
  lemma LowerIdempotent(s: string)
    ensures Lower(Lower(s)) == Lower(s)
  {
    var l := Lower(s);
    assert forall i :: 0 <= i < |l| ==> LowerChar(l[i]) == l[i];
  }

  /** `needle` occurs as a contiguous run of `hay`. */
  predicate IsSubstring(needle: string, hay: string)
    ensures IsSubstring(needle, hay) ==> |needle| <= |hay|
    decreases |hay|
  {
    needle <= hay || (hay != [] && IsSubstring(needle, hay[1..]))
  }

  /** An occurrence of `needle` at any offset of `hay` makes it a substring. */
  lemma {:induction false} IsSubstringAt(needle: string, hay: string, k: nat)
    requires k + |needle| <= |hay| && hay[k..k + |needle|] == needle
    ensures IsSubstring(needle, hay)
    decreases k
  {
    if k == 0 {
      assert needle <= hay;
    } else {
      assert hay[1..][k - 1..k - 1 + |needle|] == hay[k..k + |needle|];
      IsSubstringAt(needle, hay[1..], k - 1);
    }
  }

  /** `hay.localizedCaseInsensitiveContains(needle)`; an empty needle is never contained. */
  predicate ContainsIgnoringCase(hay: string, needle: string)
    ensures ContainsIgnoringCase(hay, needle) ==> 0 < |needle| <= |hay|
  {
    needle != [] && IsSubstring(Lower(needle), Lower(hay))
  }

  /** Containment ignores the case of both strings. */
  lemma ContainsIgnoresCase(hay: string, needle: string)
    ensures ContainsIgnoringCase(Lower(hay), needle) == ContainsIgnoringCase(hay, needle)
    ensures ContainsIgnoringCase(hay, Lower(needle)) == ContainsIgnoringCase(hay, needle)
  {
    LowerIdempotent(hay);
    LowerIdempotent(needle);
  }

  /** A non-empty string is contained, ignoring case, in itself in any case. */
  lemma ContainsItself(s: string)
    requires s != []
    ensures ContainsIgnoringCase(s, s)
    ensures ContainsIgnoringCase(Lower(s), s)
  {
    IsSubstringAt(Lower(s), Lower(s), 0);
    ContainsIgnoresCase(s, s);
  }
}
