/** Character classes and case mapping: the reading of the regular
    expressions `/[A-Z]/`, `/[a-z]/`, `/[0-9]/`, of `toUpperCase` /
    `toLowerCase` on the Basic Latin and Latin-1 letters, and of `.length`
    as a count of UTF-16 code units. */
module Chars {

  predicate IsUpper(c: char) { 'A' <= c <= 'Z' }
  predicate IsLower(c: char) { 'a' <= c <= 'z' }
  predicate IsDigit(c: char) { '0' <= c <= '9' }

  /** The class `[!@#$%^&*(),.?":{}|<>]`. */
  predicate IsSpecial(c: char) {
    c in {'!', '@', '#', '$', '%', '^', '&', '*', '(', ')', ',', '.', '?', '"', ':', '{', '}', '|', '<', '>'}
  }

  /** JavaScript `String.prototype.trim` white space, restricted to ASCII. */
  predicate IsSpace(c: char) {
    c == ' ' || c == '\t' || c == '\n' || c == '\r' || c == '\U{B}' || c == '\U{C}'
  }

  predicate HasUpper(s: string) { exists i :: 0 <= i < |s| && IsUpper(s[i]) }
  predicate HasLower(s: string) { exists i :: 0 <= i < |s| && IsLower(s[i]) }
  predicate HasDigit(s: string) { exists i :: 0 <= i < |s| && IsDigit(s[i]) }
  predicate HasSpecial(s: string) { exists i :: 0 <= i < |s| && IsSpecial(s[i]) }

  /** A letter that `toLowerCase` maps one position up: `A`-`Z` and the
      Latin-1 capitals `À`-`Þ` except the sign `×`. */
  predicate HasLowerForm(c: char) {
    IsUpper(c) || ('\U{C0}' <= c <= '\U{DE}' && c != '\U{D7}')
  }

  /** A letter that `toUpperCase` maps one position down: `a`-`z` and the
      Latin-1 small letters `à`-`þ` except the sign `÷`. */
  predicate HasUpperForm(c: char) {
    IsLower(c) || ('\U{E0}' <= c <= '\U{FE}' && c != '\U{F7}')
  }

  /** `toUpperCase` on one character. Two Latin-1 small letters have their
      capitals outside Latin-1: `ÿ` becomes `Ÿ` (U+0178) and the micro sign
      `µ` becomes the Greek capital `Μ` (U+039C). */
  function ToUpper(c: char): (r: char)
    ensures IsLower(c) ==> IsUpper(r) && r as int == c as int - 32
    ensures HasUpperForm(c) ==> HasLowerForm(r) && r as int == c as int - 32
    ensures c == '\U{FF}' ==> r == '\U{178}'
    ensures c == '\U{B5}' ==> r == '\U{39C}'
    ensures !HasUpperForm(c) && c != '\U{FF}' && c != '\U{B5}' ==> r == c
  {
    if HasUpperForm(c) then (c as int - 32) as char
    else if c == '\U{FF}' then '\U{178}'
    else if c == '\U{B5}' then '\U{39C}'
    else c
  }

  /** `toLowerCase` on one character. */
  function ToLower(c: char): (r: char)
    ensures IsUpper(c) ==> IsLower(r) && r as int == c as int + 32
    ensures HasLowerForm(c) ==> HasUpperForm(r) && r as int == c as int + 32
    ensures c == '\U{178}' ==> r == '\U{FF}'
    ensures !HasLowerForm(c) && c != '\U{178}' ==> r == c
  {
    if HasLowerForm(c) then (c as int + 32) as char
    else if c == '\U{178}' then '\U{FF}'
    else c
  }

  /** Case mapping undoes itself on the letters it changes. */
  lemma CaseRoundTrip(c: char)
    ensures HasLowerForm(c) ==> ToUpper(ToLower(c)) == c
    ensures HasUpperForm(c) ==> ToLower(ToUpper(c)) == c
    ensures ToUpper(ToUpper(c)) == ToUpper(c) && ToLower(ToLower(c)) == ToLower(c)
  {
  }

  /** `toLowerCase` on a whole string, character by character, for the
      letters `ToLower` covers. */
  function LowerString(s: string): (r: string)
    ensures |r| == |s|
    ensures forall i :: 0 <= i < |s| ==> r[i] == ToLower(s[i])
  {
    seq(|s|, i requires 0 <= i < |s| => ToLower(s[i]))
  }

  function UpperString(s: string): (r: string)
    ensures |r| == |s|
    ensures forall i :: 0 <= i < |s| ==> r[i] == ToUpper(s[i])
  {
    seq(|s|, i requires 0 <= i < |s| => ToUpper(s[i]))
  }

  /** The number of UTF-16 code units of one character: two for a
      character outside the Basic Multilingual Plane. */
  function CodeUnits(c: char): nat {
    if c as int >= 0x1_0000 then 2 else 1
  }

  /** `s.length`: the string's UTF-16 code units. */
  function JsLength(s: string): (n: nat)
    ensures |s| <= n <= 2 * |s|
    ensures n == 0 <==> s == ""
    ensures (forall i :: 0 <= i < |s| ==> s[i] as int < 0x1_0000) ==> n == |s|
  {
    if s == [] then 0 else CodeUnits(s[0]) + JsLength(s[1..])
  }

  /** `sub` occurs in `s` starting at position `i`. */
  predicate OccursAt(s: string, sub: string, i: int) {
    0 <= i && i + |sub| <= |s| && s[i..i + |sub|] == sub
  }

  /** `s.includes(sub)`. */
  predicate Contains(s: string, sub: string) {
    exists i :: 0 <= i <= |s| && OccursAt(s, sub, i)
  }
}
