/**
 * ASCII character classes as java.util.regex defines them without the
 * UNICODE_CHARACTER_CLASS flag, ASCII case folding, and substring search.
 */
module Chars {

  /** `\d` and `0-9`. */
  predicate IsDigit(c: char) { '0' <= c <= '9' }

  /** `a-z`. */
  predicate IsLower(c: char) { 'a' <= c <= 'z' }

  /** `A-Z`. */
  predicate IsUpper(c: char) { 'A' <= c <= 'Z' }

  /** `\w`, that is `[a-zA-Z_0-9]`. */
  predicate IsWordChar(c: char) { IsDigit(c) || IsLower(c) || IsUpper(c) || c == '_' }

  /** `\s`, that is `[ \t\n\x0B\f\r]`. */
  predicate IsSpace(c: char)
  {
    c == ' ' || c == '\t' || c == '\n' || c == '\U{B}' || c == '\U{C}' || c == '\r'
  }

  /** Every character of `s` belongs to the class `p`. */
  predicate All(s: string, p: char -> bool)
  {
    forall i :: 0 <= i < |s| ==> p(s[i])
  }

  /** Maps `A-Z` to `a-z` and leaves every other character alone. */
  function ToLower(c: char): (r: char)
    ensures IsUpper(c) ==> IsLower(r) && r as int - c as int == 32
    ensures !IsUpper(c) ==> r == c
  {
    if IsUpper(c) then (c as int + 32) as char else c
  }

  /** The ASCII lower-case form of `s`. */
  function Lower(s: string): (r: string)
    ensures |r| == |s|
    ensures forall i :: 0 <= i < |s| ==> r[i] == ToLower(s[i])
  {
    if s == [] then [] else [ToLower(s[0])] + Lower(s[1..])
  }

  /** `part` occurs in `text` starting at index `i`. */
  predicate OccursAt(text: string, part: string, i: int)
  {
    0 <= i && i + |part| <= |text| && text[i..i + |part|] == part
  }

  /** `part` is a substring of `text` (what `LIKE '%part%'` tests, with the wildcards escaped). */
  predicate Contains(text: string, part: string)
  {
    exists i :: 0 <= i <= |text| - |part| && OccursAt(text, part, i)
  }

  /** Lower-casing twice is lower-casing once. */
  lemma LowerIdempotent(s: string)
    ensures Lower(Lower(s)) == Lower(s)
  {
  }

  /** The empty string occurs in every string, at index 0. */
  lemma ContainsEmpty(text: string)
    ensures Contains(text, "")
  {
    assert OccursAt(text, "", 0);
  }
}
