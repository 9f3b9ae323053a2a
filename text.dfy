/**
 * Character and string predicates of the Kotlin standard library that the
 * apps rely on: `Char.isWhitespace`, `CharSequence.isBlank`, the ASCII
 * classes used inside regular expressions, and case-insensitive character
 * comparison.
 */
module Text {

  /**
   * Kotlin's `Char.isWhitespace()` on the JVM: `Character.isWhitespace(c)`
   * or `Character.isSpaceChar(c)`. These are the code points U+0009..U+000D,
   * U+001C..U+0020, U+00A0, U+1680, U+2000..U+200A, U+2028, U+2029, U+202F,
   * U+205F and U+3000.
   */
  predicate IsWhitespace(c: char) {
    var n := c as int;
    (0x09 <= n <= 0x0D) || (0x1C <= n <= 0x20) || n == 0xA0 || n == 0x1680
    || (0x2000 <= n <= 0x200A) || n == 0x2028 || n == 0x2029 || n == 0x202F
    || n == 0x205F || n == 0x3000
  }

  /** Kotlin's `isBlank()`: empty, or whitespace only. */
  predicate IsBlank(s: string) {
    forall i :: 0 <= i < |s| ==> IsWhitespace(s[i])
  }

  /** `[0-9]`; also the model's reading of the regex class `\d`. */
  predicate IsAsciiDigit(c: char) { '0' <= c <= '9' }

  predicate IsAsciiUpper(c: char) { 'A' <= c <= 'Z' }

  predicate IsAsciiLower(c: char) { 'a' <= c <= 'z' }

  /** A character of the regex class `[A-Za-z]`. */
  predicate IsAsciiLetter(c: char) { IsAsciiUpper(c) || IsAsciiLower(c) }

  /** Upper-cases an ASCII letter and leaves every other character alone. */
  function AsciiUpper(c: char): (u: char)
    ensures IsAsciiLower(c) ==> IsAsciiUpper(u) && u as int == c as int - 32
    ensures !IsAsciiLower(c) ==> u == c
  {
    if IsAsciiLower(c) then (c as int - 32) as char else c
  }

  /**
   * Two characters are equal ignoring case, as `String.contains(…,
   * ignoreCase = true)` compares them, with case folding restricted to ASCII.
   */
  predicate SameIgnoringCase(a: char, b: char) {
    a == b || AsciiUpper(a) == AsciiUpper(b)
  }

  /** `s` contains `p` at position `i`, ignoring case. */
  predicate RegionMatchesIgnoringCase(s: string, i: nat, p: string)
    requires i + |p| <= |s|
  {
    forall j :: 0 <= j < |p| ==> SameIgnoringCase(s[i + j], p[j])
  }

  /** Kotlin's `s.contains(p, ignoreCase = true)`. */
  predicate ContainsIgnoringCase(s: string, p: string) {
    exists i: nat :: i + |p| <= |s| && RegionMatchesIgnoringCase(s, i, p)
  }
}
