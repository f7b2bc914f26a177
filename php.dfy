/**
 * The PHP built-ins the client's argument checks rely on, on byte strings
 * (one `char` per byte). A PHP `null` argument is represented by "", which
 * `empty`, `strlen`, `strtoupper` and `is_numeric` all treat the same way.
 */
module Php {

  /**
   * `empty($s)` on a string: true of "" and of "0" only, so a string of two
   * or more bytes is never empty.
   */
  predicate IsEmpty(s: string)
    ensures IsEmpty(s) ==> |s| <= 1 && forall i :: 0 <= i < |s| ==> s[i] == '0'
  {
    s == "" || s == "0"
  }

  predicate IsLowerLetter(c: char) { 'a' <= c <= 'z' }

  predicate IsUpperLetter(c: char) { 'A' <= c <= 'Z' }

  /** `strtoupper` on one byte: ASCII letters only, every other byte unchanged. */
  function UpperChar(c: char): (u: char)
    ensures IsLowerLetter(c) ==> IsUpperLetter(u) && u as int == c as int - 32
    ensures !IsLowerLetter(c) ==> u == c
    ensures !IsLowerLetter(u)
  {
    if IsLowerLetter(c) then (c as int - 32) as char else c
  }

  /** `strtoupper($s)`; `UpperAt` says what it does to each byte. */
  function Upper(s: string): (r: string)
    ensures |r| == |s|
  {
    if s == [] then [] else [UpperChar(s[0])] + Upper(s[1..])
  }

  /** `strtoupper` upper-cases every byte in place. */
  lemma {:induction false} UpperAt(s: string)
    ensures forall i :: 0 <= i < |s| ==> Upper(s)[i] == UpperChar(s[i])
  {
    if s != [] {
      UpperAt(s[1..]);
      assert Upper(s) == [UpperChar(s[0])] + Upper(s[1..]);
    }
  }

  /** A word made of upper-case letters and non-letters, as the enum constants are. */
  predicate HasNoLower(w: string) {
    forall i :: 0 <= i < |w| ==> !IsLowerLetter(w[i])
  }

  /** `s` spells `w` up to the case of its ASCII letters. */
  predicate EqualsIgnoringCase(s: string, w: string) {
    && |s| == |w|
    && forall i :: 0 <= i < |s| ==>
         s[i] == w[i] || (IsUpperLetter(w[i]) && s[i] as int == w[i] as int + 32)
  }

  /** Comparing `strtoupper($s)` with an upper-case constant is a case-insensitive comparison. */
  lemma UpperMatchesIgnoringCase(s: string, w: string)
    requires HasNoLower(w)
    ensures Upper(s) == w <==> EqualsIgnoringCase(s, w)
  {
    UpperAt(s);
    if Upper(s) == w {
      forall i | 0 <= i < |s|
        ensures s[i] == w[i] || (IsUpperLetter(w[i]) && s[i] as int == w[i] as int + 32)
      {
        assert UpperChar(s[i]) == w[i];
      }
    }
    if EqualsIgnoringCase(s, w) {
      forall i | 0 <= i < |s|
        ensures Upper(s)[i] == w[i]
      {
        assert !IsLowerLetter(w[i]);
      }
    }
  }

  predicate IsDigit(c: char) { '0' <= c <= '9' }

  /** The bytes PHP skips around a numeric string: space, \t, \n, \r, \v and \f. */
  predicate IsSpace(c: char) {
    c == ' ' || c == '\t' || c == '\n' || c == '\r' || c == 11 as char || c == 12 as char
  }

  /** The end of the run of digits starting at `i`. */
  function DigitsEnd(s: string, i: nat): (j: nat)
    requires i <= |s|
    ensures i <= j <= |s|
    ensures forall k :: i <= k < j ==> IsDigit(s[k])
    ensures j < |s| ==> !IsDigit(s[j])
    decreases |s| - i
  {
    if i < |s| && IsDigit(s[i]) then DigitsEnd(s, i + 1) else i
  }

  /** The end of the run of white space starting at `i`. */
  function SpacesEnd(s: string, i: nat): (j: nat)
    requires i <= |s|
    ensures i <= j <= |s|
    ensures forall k :: i <= k < j ==> IsSpace(s[k])
    ensures j < |s| ==> !IsSpace(s[j])
    decreases |s| - i
  {
    if i < |s| && IsSpace(s[i]) then SpacesEnd(s, i + 1) else i
  }

  /** The end of an exponent `[eE][+-]?digits` starting at `i`, or `i` when there is none. */
  function ExponentEnd(s: string, i: nat): (j: nat)
    requires i <= |s|
    ensures i <= j <= |s|
    ensures j > i ==> s[i] == 'e' || s[i] == 'E'
  {
    if i < |s| && (s[i] == 'e' || s[i] == 'E') then
      var g := if i + 1 < |s| && (s[i + 1] == '+' || s[i + 1] == '-') then i + 2 else i + 1;
      var h := DigitsEnd(s, g);
      if h > g then h else i
    else i
  }

  /**
   * `is_numeric($s)` on a string (PHP 8): optional leading white space, an
   * optional sign, digits with an optional decimal point (at least one digit
   * in all), an optional exponent, optional trailing white space. A numeric
   * string is never empty and always holds a digit.
   */
  predicate IsNumeric(s: string)
    ensures IsNumeric(s) ==> |s| > 0 && exists i :: 0 <= i < |s| && IsDigit(s[i])
  {
    var a := SpacesEnd(s, 0);
    var b := if a < |s| && (s[a] == '+' || s[a] == '-') then a + 1 else a;
    var c := DigitsEnd(s, b);
    var d := if c < |s| && s[c] == '.' then DigitsEnd(s, c + 1) else c;
    var mantissaDigits := (c - b) + (if d > c then d - c - 1 else 0);
    mantissaDigits > 0 && SpacesEnd(s, ExponentEnd(s, d)) == |s|
  }

  predicate AllDigits(s: string) {
    forall i :: 0 <= i < |s| ==> IsDigit(s[i])
  }

  /** A non-empty run of decimal digits is numeric. */
  lemma DigitsAreNumeric(s: string)
    requires |s| > 0 && AllDigits(s)
    ensures IsNumeric(s)
  {
  }

  /** A sign followed by digits is numeric. */
  lemma SignedDigitsAreNumeric(sign: char, digits: string)
    requires sign == '+' || sign == '-'
    requires |digits| > 0 && AllDigits(digits)
    ensures IsNumeric([sign] + digits)
  {
  }

  /** Digits after leading white space are numeric. */
  lemma SpacedDigitsAreNumeric(space: char, digits: string)
    requires IsSpace(space)
    requires |digits| > 0 && AllDigits(digits)
    ensures IsNumeric([space] + digits)
  {
  }

  /** Digits followed by a byte that can neither continue nor end a number are not numeric. */
  lemma DigitsThenJunkNotNumeric(s: string, k: nat)
    requires 0 < k < |s|
    requires forall i :: 0 <= i < k ==> IsDigit(s[i])
    requires !IsDigit(s[k]) && !IsSpace(s[k]) && s[k] != '.' && s[k] != 'e' && s[k] != 'E'
    ensures !IsNumeric(s)
  {
  }
}
