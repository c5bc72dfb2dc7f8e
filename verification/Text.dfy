/**
 * The string transformations used to turn activity identifiers into display
 * text: `replacingOccurrences(of: "_", with: " ")`, `capitalized` and
 * `lowercased()`. Case mapping covers the ASCII letters only.
 */
module Text {

  predicate IsAsciiLetter(c: char)
  {
    'a' <= c <= 'z' || 'A' <= c <= 'Z'
  }

  predicate IsAsciiDigit(c: char)
  {
    '0' <= c <= '9'
  }

  function ToUpper(c: char): (u: char)
    ensures IsAsciiLetter(u) == IsAsciiLetter(c)
    ensures !('a' <= u <= 'z')
  {
    if 'a' <= c <= 'z' then (c as int - 32) as char else c
  }

  function ToLower(c: char): (l: char)
    ensures IsAsciiLetter(l) == IsAsciiLetter(c)
    ensures !('A' <= l <= 'Z')
  {
    if 'A' <= c <= 'Z' then (c as int + 32) as char else c
  }

  /** Every underscore becomes a space; everything else is kept. */
  function ReplaceUnderscores(s: string): (r: string)
    ensures |r| == |s|
    ensures forall i :: 0 <= i < |s| ==> r[i] == if s[i] == '_' then ' ' else s[i]
    ensures '_' !in r
  {
    if |s| == 0 then ""
    else [if s[0] == '_' then ' ' else s[0]] + ReplaceUnderscores(s[1..])
  }

  /**
   * A word starts at the front of the string and after every character that
   * is not a letter (so "don't" capitalizes as "Don'T", as Foundation does).
   */
  predicate StartsWord(s: string, i: int)
    requires 0 <= i < |s|
  {
    i == 0 || !IsAsciiLetter(s[i - 1])
  }

  /** `capitalized`: each word's first character upper-cased, the rest lower-cased. */
  function Capitalized(s: string): (r: string)
    ensures |r| == |s|
    ensures forall i {:trigger r[i]} :: 0 <= i < |s| ==> r[i] == if StartsWord(s, i) then ToUpper(s[i]) else ToLower(s[i])
  {
    CapitalizeFrom(s, true)
  }

  /** Capitalizes `s`, where `atWordStart` says whether its first character begins a word. */
  function CapitalizeFrom(s: string, atWordStart: bool): (r: string)
    ensures |r| == |s|
    ensures forall i {:trigger r[i]} :: 0 <= i < |s| ==>
      r[i] == if (i == 0 && atWordStart) || (i > 0 && !IsAsciiLetter(s[i - 1])) then ToUpper(s[i]) else ToLower(s[i])
  {
    if |s| == 0 then ""
    else
      [if atWordStart then ToUpper(s[0]) else ToLower(s[0])] + CapitalizeFrom(s[1..], !IsAsciiLetter(s[0]))
  }

  /** `lowercased()`. */
  function Lowercased(s: string): (r: string)
    ensures |r| == |s|
    ensures forall i :: 0 <= i < |s| ==> r[i] == ToLower(s[i])
  {
    if |s| == 0 then "" else [ToLower(s[0])] + Lowercased(s[1..])
  }
}
