/** Character classes and decimal numerals.

    The interpreter reads its text byte by byte and widens each byte to a
    rune, so a character of the text is a code point below 256. On that
    range `unicode.IsDigit` holds exactly of '0'..'9' and `unicode.IsSpace`
    of the six ASCII blanks plus U+0085 (NEL) and U+00A0 (NO-BREAK SPACE). */
module Chars {

  /** A byte of the input, seen as the rune it widens to. */
  type Byte = c: char | c as int < 0x100

  /** `unicode.IsDigit` on a byte. No digit is an operator character. */
  predicate IsDigit(c: char)
    ensures IsDigit(c) ==> c != '+' && c != '-'
  {
    '0' <= c <= '9'
  }

  /** `unicode.IsSpace` on a byte. Whitespace is neither a digit nor an
      operator character, so the branches of the scanner never overlap. */
  predicate IsSpace(c: char)
    ensures IsSpace(c) ==> !IsDigit(c) && c != '+' && c != '-'
  {
    c == '\t' || c == '\n' || c == '\U{B}' || c == '\U{C}' || c == '\r' || c == ' '
    || c == '\U{85}' || c == '\U{A0}'
  }

  predicate AllDigits(s: string) {
    forall i :: 0 <= i < |s| ==> IsDigit(s[i])
  }

  /** Whitespace only, read from the front. */
  predicate AllSpaces(s: string) {
    s == [] || (IsSpace(s[0]) && AllSpaces(s[1..]))
  }

  lemma {:induction false} AllSpacesAt(s: string)
    ensures AllSpaces(s) <==> forall i :: 0 <= i < |s| ==> IsSpace(s[i])
  {
    if s != [] {
      AllSpacesAt(s[1..]);
      assert forall i :: 1 <= i < |s| ==> s[i] == s[1..][i - 1];
    }
  }

  function DigitValue(c: char): (d: nat)
    requires IsDigit(c)
    ensures d < 10
  {
    c as int - '0' as int
  }

  function DigitChar(d: nat): (c: char)
    requires d < 10
    ensures IsDigit(c) && DigitValue(c) == d
  {
    ('0' as int + d) as char
  }

  /** The base-10 value of a digit string, read left to right as a
      decimal accumulator does (the empty string reads as 0). */
  function DecimalValue(s: string): nat
    requires AllDigits(s)
  {
    if s == [] then 0 else 10 * DecimalValue(s[..|s| - 1]) + DigitValue(s[|s| - 1])
  }

  /** The shortest decimal numeral of `n`: what `%v` prints for a
      non-negative integer. */
  function DecimalString(n: nat): (s: string)
    ensures AllDigits(s) && 0 < |s|
    ensures 1 < |s| ==> s[0] != '0'
  {
    if n < 10 then [DigitChar(n)] else DecimalString(n / 10) + [DigitChar(n % 10)]
  }

  /** Reading back a printed numeral gives the number printed. */
  lemma {:induction false} DecimalRoundTrip(n: nat)
    ensures DecimalValue(DecimalString(n)) == n
  {
    var s := DecimalString(n);
    if n >= 10 {
      DecimalRoundTrip(n / 10);
      assert s[..|s| - 1] == DecimalString(n / 10);
    }
  }

  /** Distinct numbers print as distinct numerals. */
  lemma DecimalStringInjective(a: nat, b: nat)
    requires DecimalString(a) == DecimalString(b)
    ensures a == b
  {
    DecimalRoundTrip(a);
    DecimalRoundTrip(b);
  }

  /** Leading zeros do not change a numeral's value ("007" reads as 7). */
  lemma {:induction false} LeadingZero(s: string)
    requires AllDigits(s)
    ensures AllDigits("0" + s) && DecimalValue("0" + s) == DecimalValue(s)
  {
    if s != [] {
      var t := s[..|s| - 1];
      LeadingZero(t);
      assert ("0" + s)[..|s|] == "0" + t;
    }
  }

  /** A numeral of `k` digits is below 10^k. */
  lemma {:induction false} DecimalValueBound(s: string)
    requires AllDigits(s)
    ensures DecimalValue(s) < Pow10(|s|)
  {
    if s != [] {
      DecimalValueBound(s[..|s| - 1]);
    }
  }

  function Pow10(k: nat): (p: nat)
    ensures 0 < p
  {
    if k == 0 then 1 else 10 * Pow10(k - 1)
  }
}
