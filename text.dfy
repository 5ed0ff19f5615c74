/**
 * ASCII text helpers used by the command interpreter: the white space that
 * `String.prototype.trim` and the regular-expression class `\s` recognise,
 * upper-casing, and the decimal conversions behind `parseInt(d, 10)` and the
 * number-to-string step of a template literal.
 *
 * Input is modelled as ASCII characters; Unicode white space and full Unicode
 * case mapping are not part of this model.
 */
module Text {

  /** Tab, line feed, vertical tab, form feed, carriage return and space. */
  predicate IsSpace(c: char) {
    c == ' ' || c == '\t' || c == '\n' || c == '\r' || c == '\U{B}' || c == '\U{C}'
  }

  predicate IsDigit(c: char) { '0' <= c <= '9' }

  predicate IsUpperLetter(c: char) { 'A' <= c <= 'Z' }

  predicate IsLowerLetter(c: char) { 'a' <= c <= 'z' }

  predicate AllSpace(s: string) {
    forall i :: 0 <= i < |s| ==> IsSpace(s[i])
  }

  predicate AllDigits(s: string) {
    forall i :: 0 <= i < |s| ==> IsDigit(s[i])
  }

  // ---------------------------------------------------------------- trim

  /** The number of white-space characters `s` starts with. */
  function LeadingSpaces(s: string): (n: nat)
    ensures n <= |s|
    ensures forall i :: 0 <= i < n ==> IsSpace(s[i])
    ensures n < |s| ==> !IsSpace(s[n])
  {
    if s != [] && IsSpace(s[0]) then 1 + LeadingSpaces(s[1..]) else 0
  }

  /** The number of white-space characters `s` ends with. */
  function TrailingSpaces(s: string): (n: nat)
    ensures n <= |s|
    ensures forall i :: |s| - n <= i < |s| ==> IsSpace(s[i])
    ensures n < |s| ==> !IsSpace(s[|s| - 1 - n])
  {
    if s != [] && IsSpace(s[|s| - 1]) then 1 + TrailingSpaces(s[..|s| - 1]) else 0
  }

  /**
   * `trim()`: the line without its leading and trailing white space. Nothing
   * white is left at either end, and the result is empty exactly when the
   * line holds nothing but white space.
   */
  function Trim(s: string): (r: string)
    ensures |r| <= |s|
    ensures r == [] || (!IsSpace(r[0]) && !IsSpace(r[|r| - 1]))
    ensures r == [] <==> AllSpace(s)
  {
    var t := s[LeadingSpaces(s)..];
    t[..|t| - TrailingSpaces(t)]
  }

  /** The trimmed line is a contiguous part of `s` with only white space cut off on either side. */
  lemma TrimIsInfix(s: string)
    ensures exists i, j :: 0 <= i <= j <= |s| && Trim(s) == s[i..j] && AllSpace(s[..i]) && AllSpace(s[j..])
  {
    var i := LeadingSpaces(s);
    var t := s[i..];
    var j := i + |t| - TrailingSpaces(t);
    assert Trim(s) == s[i..j];
    assert s[j..] == t[|t| - TrailingSpaces(t)..];
  }

  /** Trimming is idempotent. */
  lemma TrimIdempotent(s: string)
    ensures Trim(Trim(s)) == Trim(s)
  {
    TrimUnpadded(Trim(s));
  }

  /** A string without white space at either end is its own trimmed form. */
  lemma TrimUnpadded(s: string)
    requires s == [] || (!IsSpace(s[0]) && !IsSpace(s[|s| - 1]))
    ensures Trim(s) == s
  {
    assert s[0..] == s;
    assert s[..|s|] == s;
  }

  // ----------------------------------------------------------- upper-case

  /** ASCII `toUpperCase` of one character. */
  function UpperChar(c: char): (u: char)
    ensures IsLowerLetter(c) ==> IsUpperLetter(u) && u as int == c as int - 32
    ensures !IsLowerLetter(c) ==> u == c
  {
    if IsLowerLetter(c) then (c as int - 32) as char else c
  }

  /** ASCII `toUpperCase` of a string: the same length, upper-cased character by character. */
  function Upper(s: string): (r: string)
    ensures |r| == |s|
    ensures forall i :: 0 <= i < |s| ==> r[i] == UpperChar(s[i])
  {
    if s == [] then [] else [UpperChar(s[0])] + Upper(s[1..])
  }

  /** Upper-casing a slice is slicing the upper-cased string. */
  lemma UpperSlice(s: string, i: nat, j: nat)
    requires i <= j <= |s|
    ensures Upper(s)[i..j] == Upper(s[i..j])
  {
  }

  lemma {:induction false} LeadingSpacesUpper(s: string)
    ensures LeadingSpaces(Upper(s)) == LeadingSpaces(s)
  {
    if s != [] {
      UpperSlice(s, 1, |s|);
      if IsSpace(s[0]) {
        LeadingSpacesUpper(s[1..]);
      }
    }
  }

  lemma {:induction false} TrailingSpacesUpper(s: string)
    ensures TrailingSpaces(Upper(s)) == TrailingSpaces(s)
  {
    if s != [] {
      var n := |s| - 1;
      UpperSlice(s, 0, n);
      if IsSpace(s[n]) {
        TrailingSpacesUpper(s[..n]);
      }
    }
  }

  /** Dropping the leading white space commutes with upper-casing. */
  lemma DropLeadingUpper(s: string)
    ensures Upper(s)[LeadingSpaces(Upper(s))..] == Upper(s[LeadingSpaces(s)..])
  {
    LeadingSpacesUpper(s);
    UpperSlice(s, LeadingSpaces(s), |s|);
  }

  /** Dropping the trailing white space commutes with upper-casing. */
  lemma DropTrailingUpper(t: string)
    ensures Upper(t)[..|t| - TrailingSpaces(Upper(t))] == Upper(t[..|t| - TrailingSpaces(t)])
  {
    TrailingSpacesUpper(t);
    UpperSlice(t, 0, |t| - TrailingSpaces(t));
  }

  /** Upper-casing and trimming may be done in either order. */
  lemma TrimUpperCommute(s: string)
    ensures Trim(Upper(s)) == Upper(Trim(s))
  {
    var t := s[LeadingSpaces(s)..];
    DropLeadingUpper(s);
    DropTrailingUpper(t);
  }

  predicate NoLowerLetter(s: string) {
    forall i :: 0 <= i < |s| ==> !IsLowerLetter(s[i])
  }

  lemma NoLowerLetterAppend(a: string, b: string)
    requires NoLowerLetter(a) && NoLowerLetter(b)
    ensures NoLowerLetter(a + b)
  {
  }

  /** A string without lower-case letters is unchanged by upper-casing. */
  lemma UpperUnchanged(s: string)
    requires NoLowerLetter(s)
    ensures Upper(s) == s
  {
  }

  /** Upper-casing is idempotent. */
  lemma UpperIdempotent(s: string)
    ensures Upper(Upper(s)) == Upper(s)
  {
  }

  // --------------------------------------------------------------- decimal

  function DigitValue(c: char): nat
    requires IsDigit(c)
  {
    c as int - '0' as int
  }

  function DigitChar(d: nat): (c: char)
    requires d < 10
    ensures IsDigit(c) && DigitValue(c) == d
  {
    ('0' as int + d) as char
  }

  /** `parseInt(s, 10)` of a run of decimal digits (the empty run reads as 0). */
  function DigitsValue(s: string): nat
    requires AllDigits(s)
  {
    if s == [] then 0 else DigitsValue(s[..|s| - 1]) * 10 + DigitValue(s[|s| - 1])
  }

  /** The decimal numeral of a natural number, as a number prints in JavaScript. */
  function Decimal(n: nat): (s: string)
    ensures s != [] && AllDigits(s)
    ensures |s| > 1 ==> s[0] != '0'
  {
    if n < 10 then [DigitChar(n)] else Decimal(n / 10) + [DigitChar(n % 10)]
  }

  /** The decimal numeral of an integer, with a minus sign when negative. */
  function IntDecimal(i: int): (s: string)
    ensures s != []
    ensures i >= 0 ==> AllDigits(s) && DigitsValue(s) == i
    ensures i < 0 ==> s[0] == '-' && AllDigits(s[1..]) && DigitsValue(s[1..]) == -i
  {
    if i < 0 then
      var d := Decimal(-i);
      DecimalRoundTrip(-i);
      assert ("-" + d)[1..] == d;
      "-" + d
    else
      DecimalRoundTrip(i);
      Decimal(i)
  }

  /** Reading back a printed numeral gives the number. */
  lemma {:induction false} DecimalRoundTrip(n: nat)
    ensures DigitsValue(Decimal(n)) == n
  {
    if n >= 10 {
      var s := Decimal(n);
      assert s[..|s| - 1] == Decimal(n / 10);
      DecimalRoundTrip(n / 10);
    }
  }

  /** Leading zeros do not change the value read, so `007` reads as 7. */
  lemma {:induction false} LeadingZero(s: string)
    requires AllDigits(s)
    ensures DigitsValue("0" + s) == DigitsValue(s)
  {
    if s != [] {
      var t := "0" + s;
      assert t[..|t| - 1] == "0" + s[..|s| - 1];
      LeadingZero(s[..|s| - 1]);
    }
  }
}
