/**
 * ASCII models of the Python string methods that the selectors pass through:
 * `str.lower()` and `str.title()`. Characters outside A-Z/a-z are treated as
 * uncased, which is what Python does for digits, spaces and punctuation.
 */
module Text {

  predicate IsUpper(c: char) { 'A' <= c <= 'Z' }

  predicate IsLower(c: char) { 'a' <= c <= 'z' }

  /** A character that has an upper- and a lower-case form. */
  predicate IsCased(c: char) { IsUpper(c) || IsLower(c) }

  function LowerChar(c: char): char {
    if IsUpper(c) then (c as int + 32) as char else c
  }

  function UpperChar(c: char): char {
    if IsLower(c) then (c as int - 32) as char else c
  }

  /** `str.lower()` */
  function Lower(s: string): (r: string)
    ensures |r| == |s|
    decreases |s|
  {
    if s == [] then [] else [LowerChar(s[0])] + Lower(s[1..])
  }

  /**
   * `str.title()`: a cased character is upper-cased when the character before
   * it is not cased, and lower-cased otherwise. `afterCased` says whether the
   * character preceding `s` was cased.
   */
  function TitleFrom(s: string, afterCased: bool): string
    decreases |s|
  {
    if s == [] then []
    else
      var c := s[0];
      var t := if !IsCased(c) then c else if afterCased then LowerChar(c) else UpperChar(c);
      [t] + TitleFrom(s[1..], IsCased(c))
  }

  function Title(s: string): string {
    TitleFrom(s, false)
  }

  /** Lower-casing a character keeps its casedness and fixes its title forms. */
  lemma LowerCharFacts(c: char)
    ensures IsCased(LowerChar(c)) == IsCased(c)
    ensures LowerChar(LowerChar(c)) == LowerChar(c)
    ensures UpperChar(LowerChar(c)) == UpperChar(c)
  {
  }

  /** After a cased character, a run of lower-case letters is left as it is. */
  lemma {:induction false} TitleFromLowerRun(s: string)
    requires forall i :: 0 <= i < |s| ==> IsLower(s[i])
    ensures TitleFrom(s, true) == s
    decreases |s|
  {
    if s != [] {
      TitleFromLowerRun(s[1..]);
    }
  }

  /** Title-casing a lower-case word capitalises its first letter only. */
  lemma TitleOfLowerWord(c: char, s: string)
    requires IsLower(c)
    requires forall i :: 0 <= i < |s| ==> IsLower(s[i])
    ensures Title([c] + s) == [UpperChar(c)] + s
  {
    assert ([c] + s)[1..] == s;
    TitleFromLowerRun(s);
  }

  /** Title-casing does not depend on the case of its input. */
  lemma {:induction false} TitleFromIgnoresCase(s: string, afterCased: bool)
    ensures TitleFrom(Lower(s), afterCased) == TitleFrom(s, afterCased)
    decreases |s|
  {
    if s != [] {
      LowerCharFacts(s[0]);
      assert Lower(s)[1..] == Lower(s[1..]);
      TitleFromIgnoresCase(s[1..], IsCased(s[0]));
    }
  }

  /** The weekday comparison of the filter is case-insensitive in the selector. */
  lemma TitleIgnoresCase(s: string)
    ensures Title(Lower(s)) == Title(s)
  {
    TitleFromIgnoresCase(s, false);
  }

  /** A string with no upper-case letter is its own lower-case form. */
  lemma {:induction false} LowerOfLowercase(s: string)
    requires forall i :: 0 <= i < |s| ==> !IsUpper(s[i])
    ensures Lower(s) == s
    decreases |s|
  {
    if s != [] {
      LowerOfLowercase(s[1..]);
    }
  }

  /** Lower-casing twice is lower-casing once. */
  lemma {:induction false} LowerIdempotent(s: string)
    ensures Lower(Lower(s)) == Lower(s)
  {
    if s != [] {
      LowerCharFacts(s[0]);
      LowerIdempotent(s[1..]);
    }
  }
}
