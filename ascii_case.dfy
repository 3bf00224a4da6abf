/**
 * ASCII case conversion as performed by `::toupper` and `::tolower` in the
 * default "C" locale, lifted to whole strings the way `std::transform` with
 * one of those functions rewrites a string character by character.
 */
module AsciiCase {

  /** The two conversions that the case decorators hand to std::transform. */
  datatype CaseMap = ToUpper | ToLower

  predicate IsAsciiLower(c: char) { 'a' <= c <= 'z' }

  predicate IsAsciiUpper(c: char) { 'A' <= c <= 'Z' }

  /** `::toupper` in the "C" locale: only 'a'..'z' change, each to the
      capital at the same place in the alphabet. */
  function UpperChar(c: char): (r: char)
    ensures r == c <==> !IsAsciiLower(c)
    ensures !IsAsciiLower(r)
    ensures IsAsciiLower(c) ==> IsAsciiUpper(r) && r as int - 'A' as int == c as int - 'a' as int
  {
    if IsAsciiLower(c) then (c as int - 32) as char else c
  }

  /** `::tolower` in the "C" locale: only 'A'..'Z' change, each to the
      small letter at the same place in the alphabet. */
  function LowerChar(c: char): (r: char)
    ensures r == c <==> !IsAsciiUpper(c)
    ensures !IsAsciiUpper(r)
    ensures IsAsciiUpper(c) ==> IsAsciiLower(r) && r as int - 'a' as int == c as int - 'A' as int
  {
    if IsAsciiUpper(c) then (c as int + 32) as char else c
  }

  /** The two conversions undo each other on letters, and neither changes
      which letter a character is. */
  lemma CaseCharsInverse(c: char)
    ensures IsAsciiLower(c) ==> LowerChar(UpperChar(c)) == c
    ensures IsAsciiUpper(c) ==> UpperChar(LowerChar(c)) == c
    ensures LowerChar(UpperChar(c)) == LowerChar(c)
    ensures UpperChar(LowerChar(c)) == UpperChar(c)
  {
  }

  function MapChar(k: CaseMap, c: char): char
  {
    match k
    case ToUpper => UpperChar(c)
    case ToLower => LowerChar(c)
  }

  /** A character that conversion `k` leaves alone: no lower-case letter for
      ToUpper, no upper-case letter for ToLower. */
  predicate InCase(k: CaseMap, c: char)
  {
    match k
    case ToUpper => !IsAsciiLower(c)
    case ToLower => !IsAsciiUpper(c)
  }

  predicate AllInCase(k: CaseMap, s: string)
  {
    forall i :: 0 <= i < |s| ==> InCase(k, s[i])
  }

  /** std::transform(s.begin(), s.end(), s.begin(), f): the per-character map. */
  function MapText(k: CaseMap, s: string): (r: string)
    ensures |r| == |s|
    ensures forall i :: 0 <= i < |s| ==> r[i] == MapChar(k, s[i])
  {
    if s == [] then [] else [MapChar(k, s[0])] + MapText(k, s[1..])
  }

  /** Conversion `k` fixes exactly the characters already in its case. */
  lemma MapCharFixedIff(k: CaseMap, c: char)
    ensures MapChar(k, c) == c <==> InCase(k, c)
    ensures InCase(k, MapChar(k, c))
  {
  }

  /** Every character of a converted string is in the target case. */
  lemma MapTextInCase(k: CaseMap, s: string)
    ensures AllInCase(k, MapText(k, s))
  {
  }

  /** A string is left unchanged by conversion `k` exactly when it is already
      entirely in that case (e.g. uppercasing an upper-case string). */
  lemma MapTextFixedIff(k: CaseMap, s: string)
    ensures MapText(k, s) == s <==> AllInCase(k, s)
  {
  }

  /** Conversion is idempotent. */
  lemma MapTextIdempotent(k: CaseMap, s: string)
    ensures MapText(k, MapText(k, s)) == MapText(k, s)
  {
  }
}
