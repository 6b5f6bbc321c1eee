/**
 * The part of `java.lang.String` that the container's configuration relies on:
 * `equalsIgnoreCase`, which compares two strings character by character, treating
 * two characters as equal when they are equal, when their upper-case forms are equal,
 * or when the lower-case forms of their upper-case forms are equal.
 *
 * Case mapping is restricted to the ASCII letters.
 */
module JavaString {

  /** `Character.toUpperCase` on the ASCII letters; every other character maps to itself. */
  function ToUpper(c: char): char {
    if 'a' <= c <= 'z' then (c as int - 32) as char else c
  }

  /** `Character.toLowerCase` on the ASCII letters; every other character maps to itself. */
  function ToLower(c: char): char {
    if 'A' <= c <= 'Z' then (c as int + 32) as char else c
  }

  /** The per-character test of `String.regionMatches(true, ...)`. */
  predicate CharEqualsIgnoreCase(c1: char, c2: char) {
    c1 == c2
    || ToUpper(c1) == ToUpper(c2)
    || ToLower(ToUpper(c1)) == ToLower(ToUpper(c2))
  }

  /** `a.equalsIgnoreCase(b)` for a non-null `b`: equal lengths and every position matches. */
  predicate EqualsIgnoreCase(a: string, b: string) {
    |a| == |b| && (|a| == 0 || (CharEqualsIgnoreCase(a[0], b[0]) && EqualsIgnoreCase(a[1..], b[1..])))
  }

  /** The string with every ASCII upper-case letter replaced by its lower-case form. */
  function Lowered(s: string): (r: string)
    ensures |r| == |s|
    ensures forall i :: 0 <= i < |s| ==> r[i] == ToLower(s[i])
  {
    if s == [] then [] else [ToLower(s[0])] + Lowered(s[1..])
  }

  /** Two characters match ignoring case exactly when their lower-case forms are equal. */
  lemma CharEqualsIgnoreCaseIffLower(c1: char, c2: char)
    ensures CharEqualsIgnoreCase(c1, c2) <==> ToLower(c1) == ToLower(c2)
  {
  }

  /**
   * `equalsIgnoreCase` is equality of the lower-cased strings; in particular it is
   * reflexive and symmetric.
   */
  lemma {:induction false} EqualsIgnoreCaseIffLowered(a: string, b: string)
    ensures EqualsIgnoreCase(a, b) <==> Lowered(a) == Lowered(b)
  {
    if |a| == |b| && |a| > 0 {
      EqualsIgnoreCaseIffLowered(a[1..], b[1..]);
      CharEqualsIgnoreCaseIffLower(a[0], b[0]);
      assert Lowered(a) == [ToLower(a[0])] + Lowered(a[1..]);
      assert Lowered(b) == [ToLower(b[0])] + Lowered(b[1..]);
      if Lowered(a) == Lowered(b) {
        assert Lowered(a)[0] == Lowered(b)[0];
        assert Lowered(a[1..]) == Lowered(a)[1..];
        assert Lowered(b[1..]) == Lowered(b)[1..];
      }
    } else if |a| != |b| {
      assert |Lowered(a)| != |Lowered(b)|;
    }
  }
}
