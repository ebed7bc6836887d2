// Case mapping of Python's str.lower() and str.upper(), restricted to the
// ASCII letters: the level names this component compares and looks up are
// ASCII, and the model does not carry Unicode's case tables.
module AsciiCase {

  /** str.lower() on one character. */
  function LowerChar(c: char): char
  {
    if 'A' <= c <= 'Z' then (c as int + 32) as char else c
  }

  /** str.upper() on one character. */
  function UpperChar(c: char): char
  {
    if 'a' <= c <= 'z' then (c as int - 32) as char else c
  }

  /** str.lower(): maps every character on its own and keeps the length. */
  function Lower(s: string): (r: string)
    ensures |r| == |s|
    ensures forall i :: 0 <= i < |s| ==> r[i] == LowerChar(s[i])
  {
    if s == [] then [] else [LowerChar(s[0])] + Lower(s[1..])
  }

  /** str.upper(): maps every character on its own and keeps the length. */
  function Upper(s: string): (r: string)
    ensures |r| == |s|
    ensures forall i :: 0 <= i < |s| ==> r[i] == UpperChar(s[i])
  {
    if s == [] then [] else [UpperChar(s[0])] + Upper(s[1..])
  }

  /** `a.lower() == b.lower()`, the source's test for "the same level". */
  predicate EqualsIgnoreCase(a: string, b: string)
    ensures a == b ==> EqualsIgnoreCase(a, b)
    ensures EqualsIgnoreCase(a, b) ==> |a| == |b|
  {
    Lower(a) == Lower(b)
  }

  /** Two characters fold together under lower() exactly when they do under upper(). */
  lemma CharFoldsAgree(x: char, y: char)
    ensures LowerChar(x) == LowerChar(y) <==> UpperChar(x) == UpperChar(y)
  {
  }

  /** Comparing lower-cased names is the same as comparing upper-cased ones,
      so the guard that lower-cases and the lookup that upper-cases agree. */
  lemma IgnoreCaseIffSameUpper(a: string, b: string)
    ensures EqualsIgnoreCase(a, b) <==> Upper(a) == Upper(b)
  {
    if |a| == |b| {
      forall i | 0 <= i < |a|
        ensures Lower(a)[i] == Lower(b)[i] <==> Upper(a)[i] == Upper(b)[i]
      {
        CharFoldsAgree(a[i], b[i]);
      }
      if Upper(a) == Upper(b) {
        assert forall i | 0 <= i < |a| :: Lower(a)[i] == Lower(b)[i];
      }
      if Lower(a) == Lower(b) {
        assert forall i | 0 <= i < |a| :: Upper(a)[i] == Upper(b)[i];
      }
    } else {
      assert |Lower(a)| != |Lower(b)|;
    }
  }

  /** Against a name already in upper case (as every severity name is), the
      case-insensitive test holds exactly when the other name upper-cases to it. */
  lemma IgnoreCaseAgainstCanonical(canonical: string, name: string)
    requires Upper(canonical) == canonical
    ensures EqualsIgnoreCase(canonical, name) <==> Upper(name) == canonical
  {
    IgnoreCaseIffSameUpper(canonical, name);
  }
}
