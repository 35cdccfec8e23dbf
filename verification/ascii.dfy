/**
 * Upper-casing of text, as Python's `str.upper()` does it on ASCII input.
 * Only the letters a-z change; every other character is left alone.
 */
module Ascii {

  predicate IsLower(c: char) { 'a' <= c <= 'z' }

  predicate IsUpper(c: char) { 'A' <= c <= 'Z' }

  /** One character, upper-cased. */
  function UpperChar(c: char): (u: char)
    ensures !IsLower(u)
    ensures IsUpper(u) <==> IsUpper(c) || IsLower(c)
    ensures !IsLower(c) ==> u == c
    ensures IsLower(c) ==> u as int + 32 == c as int
  {
    if IsLower(c) then (c as int - 32) as char else c
  }

  /** The whole string upper-cased, character by character; the length never changes. */
  function ToUpper(s: string): (r: string)
    ensures |r| == |s|
    ensures forall i :: 0 <= i < |s| ==> r[i] == UpperChar(s[i])
  {
    if s == [] then [] else [UpperChar(s[0])] + ToUpper(s[1..])
  }

  /** Two strings that differ at most in the case of their ASCII letters. */
  predicate EqualIgnoringCase(a: string, b: string)
  {
    |a| == |b| && forall i :: 0 <= i < |a| ==> UpperChar(a[i]) == UpperChar(b[i])
  }

  /** A string made of capital letters A-Z only, such as an enumeration member's name. */
  predicate IsUpperWord(s: string)
  {
    forall i :: 0 <= i < |s| ==> IsUpper(s[i])
  }

  /** Upper-casing a string twice is the same as doing it once. */
  lemma ToUpperIdempotent(s: string)
    ensures ToUpper(ToUpper(s)) == ToUpper(s)
  {
    var u := ToUpper(s);
    assert forall i :: 0 <= i < |u| ==> ToUpper(u)[i] == u[i];
  }

  /** A word already in capitals is its own upper-case form. */
  lemma ToUpperOfUpperWord(s: string)
    requires IsUpperWord(s)
    ensures ToUpper(s) == s
  {
    assert forall i :: 0 <= i < |s| ==> ToUpper(s)[i] == s[i];
  }

  /**
   * Comparing upper-case forms is exactly case-insensitive comparison:
   * the two strings agree up to the case of their ASCII letters.
   */
  lemma UpperEqualIffEqualIgnoringCase(a: string, b: string)
    ensures ToUpper(a) == ToUpper(b) <==> EqualIgnoringCase(a, b)
  {
    if EqualIgnoringCase(a, b) {
      assert forall i :: 0 <= i < |a| ==> ToUpper(a)[i] == ToUpper(b)[i];
    }
    if ToUpper(a) == ToUpper(b) {
      assert forall i :: 0 <= i < |a| ==> UpperChar(a[i]) == ToUpper(a)[i] == ToUpper(b)[i] == UpperChar(b[i]);
    }
  }

  /** Against a word in capitals, case-insensitive equality is equality of the upper-case form. */
  lemma EqualIgnoringCaseUpperWord(s: string, word: string)
    requires IsUpperWord(word)
    ensures EqualIgnoringCase(s, word) <==> ToUpper(s) == word
  {
    ToUpperOfUpperWord(word);
    UpperEqualIffEqualIgnoringCase(s, word);
  }
}
