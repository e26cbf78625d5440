/**
  ASCII models of Python's `str.lower` and `str.title`, the only string
  transformations the requirement engine applies to its inputs.
*/
module Casing {

  predicate IsUpper(c: char) { 'A' <= c <= 'Z' }

  predicate IsLower(c: char) { 'a' <= c <= 'z' }

  /** A character that has case; `str.title` starts a new word after any other. */
  predicate IsCased(c: char) { IsUpper(c) || IsLower(c) }

  function LowerChar(c: char): char
  {
    if IsUpper(c) then (c as int + 32) as char else c
  }

  function UpperChar(c: char): char
  {
    if IsLower(c) then (c as int - 32) as char else c
  }

  /** `str.title` on one character, given whether the character before it was cased. */
  function TitleChar(c: char, afterCased: bool): char
  {
    if !IsCased(c) then c
    else if afterCased then LowerChar(c)
    else UpperChar(c)
  }

  /** `s.lower()`, character by character. */
  function Lower(s: string): string
  {
    if s == [] then [] else [LowerChar(s[0])] + Lower(s[1..])
  }

  /**
    What `s.lower()` promises: the same length, every upper-case letter mapped
    to its lower-case one, every other character kept, no upper-case left.
  */
  lemma {:induction false} LowerPointwise(s: string)
    ensures |Lower(s)| == |s|
    ensures forall i :: 0 <= i < |s| ==> Lower(s)[i] == LowerChar(s[i])
    ensures forall i :: 0 <= i < |s| ==> !IsUpper(Lower(s)[i])
  {
    if s != [] {
      LowerPointwise(s[1..]);
      assert Lower(s) == [LowerChar(s[0])] + Lower(s[1..]);
    }
  }

  /** `str.title` on a suffix whose preceding character was cased iff `afterCased`. */
  function TitleFrom(s: string, afterCased: bool): (r: string)
    ensures |r| == |s|
    ensures forall i :: 0 <= i < |s| ==>
      r[i] == TitleChar(s[i], if i == 0 then afterCased else IsCased(s[i - 1]))
  {
    if s == [] then [] else [TitleChar(s[0], afterCased)] + TitleFrom(s[1..], IsCased(s[0]))
  }

  /**
    `s.title()`: a cased character is upper-cased when it starts a word (nothing
    cased just before it) and lower-cased otherwise; other characters are kept.
  */
  function Title(s: string): (r: string)
    ensures |r| == |s|
    ensures forall i :: 0 <= i < |s| && IsCased(s[i]) && (i == 0 || !IsCased(s[i - 1])) ==> r[i] == UpperChar(s[i])
    ensures forall i :: 0 <= i < |s| && IsCased(s[i]) && i > 0 && IsCased(s[i - 1]) ==> r[i] == LowerChar(s[i])
    ensures forall i :: 0 <= i < |s| && !IsCased(s[i]) ==> r[i] == s[i]
  {
    var r := TitleFrom(s, false);
    assert forall i :: 0 <= i < |s| && !IsCased(s[i]) ==> r[i] == s[i] by {
      forall i | 0 <= i < |s| && !IsCased(s[i]) ensures r[i] == s[i] {
        assert r[i] == TitleChar(s[i], if i == 0 then false else IsCased(s[i - 1]));
      }
    }
    r
  }

  /** Lower-casing twice is lower-casing once, so a normalised key normalises to itself. */
  lemma LowerIdempotent(s: string)
    ensures Lower(Lower(s)) == Lower(s)
  {
    var t := Lower(s);
    LowerPointwise(s);
    LowerPointwise(t);
    assert forall i :: 0 <= i < |t| ==> Lower(t)[i] == t[i];
  }

  /** Title-casing a string and then lower-casing it gives the same string as lower-casing it directly. */
  lemma LowerOfTitle(s: string)
    ensures Lower(Title(s)) == Lower(s)
  {
    var t := Title(s);
    LowerPointwise(s);
    LowerPointwise(t);
    forall i | 0 <= i < |s|
      ensures Lower(t)[i] == Lower(s)[i]
    {
      assert t[i] == TitleChar(s[i], if i == 0 then false else IsCased(s[i - 1]));
    }
  }
}
