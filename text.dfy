/**
 * Case handling of strings as Python's str.lower() and str.title() perform it
 * on the ASCII letters; every other character is left as it is and counts as
 * uncased.
 */
module Text {

  predicate IsUpper(c: char) { 'A' <= c <= 'Z' }

  predicate IsLower(c: char) { 'a' <= c <= 'z' }

  predicate IsLetter(c: char) { IsUpper(c) || IsLower(c) }

  function LowerChar(c: char): (r: char)
    ensures IsLetter(r) == IsLetter(c)
    ensures !IsUpper(r)
    ensures !IsLetter(c) ==> r == c
  {
    if IsUpper(c) then (c as int + 32) as char else c
  }

  function UpperChar(c: char): (r: char)
    ensures IsLetter(r) == IsLetter(c)
    ensures LowerChar(r) == LowerChar(c)
  {
    if IsLower(c) then (c as int - 32) as char else c
  }

  /** str.lower() */
  function Lower(s: string): (r: string)
    ensures |r| == |s|
    ensures forall i :: 0 <= i < |s| ==> r[i] == LowerChar(s[i])
  {
    if s == [] then [] else [LowerChar(s[0])] + Lower(s[1..])
  }

  /** The comparison `a.lower() == b.lower()` used for every name lookup. */
  predicate SameName(a: string, b: string) {
    Lower(a) == Lower(b)
  }

  /**
   * str.title(): a letter that follows a letter is lower-cased, any other
   * letter is upper-cased. `afterCased` says whether the character before
   * `s` was a letter.
   */
  function TitleFrom(s: string, afterCased: bool): (r: string)
    ensures |r| == |s|
  {
    if s == [] then []
    else
      var c := s[0];
      [if !IsLetter(c) then c else if afterCased then LowerChar(c) else UpperChar(c)]
        + TitleFrom(s[1..], IsLetter(c))
  }

  function Title(s: string): string {
    TitleFrom(s, false)
  }

  /** Title-casing changes no letter into a different letter: lower-casing undoes it. */
  lemma {:induction false} LowerOfTitle(s: string, afterCased: bool)
    ensures Lower(TitleFrom(s, afterCased)) == Lower(s)
  {
    if s != [] {
      LowerOfTitle(s[1..], IsLetter(s[0]));
      var t := TitleFrom(s, afterCased);
      assert t[1..] == TitleFrom(s[1..], IsLetter(s[0]));
      assert Lower(t) == [LowerChar(t[0])] + Lower(t[1..]);
    }
  }

  /** On a word made only of letters, title-casing upper-cases the first letter and lower-cases the rest. */
  lemma {:induction false} TitleOfWord(s: string, afterCased: bool)
    requires forall i :: 0 <= i < |s| ==> IsLetter(s[i])
    ensures afterCased ==> TitleFrom(s, afterCased) == Lower(s)
    ensures !afterCased && s != [] ==> TitleFrom(s, afterCased) == [UpperChar(s[0])] + Lower(s[1..])
  {
    if s != [] {
      TitleOfWord(s[1..], true);
    }
  }
}
