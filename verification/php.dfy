/** The PHP built-ins whose exact behaviour the notification core depends on:
    `empty()` on strings, `absint()`, the decimal form of an integer (string
    concatenation and transient keys), `intval()` on a string (the SMTP port)
    and `sanitize_text_field()` (settings input). */
module Php {

  /** PHP `empty()` of a string value: true for "" and for "0". An unset key
      reads as "" in this model, which `empty()` treats the same way. */
  predicate Empty(s: string) {
    s == "" || s == "0"
  }

  /** `absint()` of an integer: its absolute value. */
  function AbsInt(n: int): (r: nat)
    ensures r == n || r == -n
  {
    if n < 0 then -n else n
  }

  predicate IsDigit(c: char) {
    '0' <= c <= '9'
  }

  predicate AllDigits(s: string) {
    forall i :: 0 <= i < |s| ==> IsDigit(s[i])
  }

  function DigitChar(d: nat): (c: char)
    requires d < 10
    ensures IsDigit(c)
  {
    ('0' as int + d) as char
  }

  function DigitValue(c: char): (d: nat)
    requires IsDigit(c)
    ensures d < 10
  {
    c as int - '0' as int
  }

  /** The decimal text PHP produces when an integer is concatenated to a
      string (`'prefix' . $id`), for non-negative integers. */
  function NatToDecimal(n: nat): (s: string)
    ensures |s| >= 1 && AllDigits(s)
    ensures |s| > 1 ==> s[0] != '0'
    decreases n
  {
    if n < 10 then [DigitChar(n)] else NatToDecimal(n / 10) + [DigitChar(n % 10)]
  }

  /** The number a string of decimal digits denotes. */
  function DecimalValue(s: string): nat
    requires AllDigits(s)
  {
    if s == [] then 0 else DecimalValue(s[..|s| - 1]) * 10 + DigitValue(s[|s| - 1])
  }

  /** Reading back the decimal text of `n` gives `n`. */
  lemma {:induction false} DecimalRoundTrip(n: nat)
    ensures DecimalValue(NatToDecimal(n)) == n
  {
    if n >= 10 {
      DecimalRoundTrip(n / 10);
      var s := NatToDecimal(n);
      assert s[..|s| - 1] == NatToDecimal(n / 10);
    }
  }

  /** Distinct integers have distinct decimal texts. */
  lemma NatToDecimalInjective(m: nat, n: nat)
    ensures NatToDecimal(m) == NatToDecimal(n) ==> m == n
  {
    DecimalRoundTrip(m);
    DecimalRoundTrip(n);
  }

  /** The characters PHP skips before the digits of a numeric string. */
  predicate IsNumericSpace(c: char) {
    c == ' ' || c == '\t' || c == '\n' || c == '\r' || c == '\U{000B}' || c == '\U{000C}'
  }

  function SkipSpaces(s: string): (r: string)
    ensures |r| <= |s| && r == s[|s| - |r|..]
    ensures r == [] || !IsNumericSpace(r[0])
  {
    if s != [] && IsNumericSpace(s[0]) then SkipSpaces(s[1..]) else s
  }

  /** The longest prefix of `s` made of digits. */
  function DigitPrefix(s: string): (r: string)
    ensures |r| <= |s| && r == s[..|r|] && AllDigits(r)
    ensures |r| < |s| ==> !IsDigit(s[|r|])
  {
    if s != [] && IsDigit(s[0]) then [s[0]] + DigitPrefix(s[1..]) else []
  }

  /** `intval()` of a string: leading white space, an optional sign and the
      longest run of digits that follows; 0 when there are no digits. */
  function IntVal(s: string): (r: int)
    ensures r < 0 ==> '-' in s
  {
    var t := SkipSpaces(s);
    if t != [] && t[0] == '-' then -(DecimalValue(DigitPrefix(t[1..])) as int)
    else if t != [] && t[0] == '+' then DecimalValue(DigitPrefix(t[1..]))
    else DecimalValue(DigitPrefix(t))
  }

  lemma {:induction false} DigitPrefixOfDigits(s: string)
    requires AllDigits(s)
    ensures DigitPrefix(s) == s
  {
    if s != [] {
      DigitPrefixOfDigits(s[1..]);
    }
  }

  /** `intval()` reads back the decimal text of every non-negative integer. */
  lemma IntValOfDecimal(n: nat)
    ensures IntVal(NatToDecimal(n)) == n
  {
    var s := NatToDecimal(n);
    assert IsDigit(s[0]);
    assert !IsNumericSpace(s[0]) && s[0] != '-' && s[0] != '+';
    assert SkipSpaces(s) == s;
    DigitPrefixOfDigits(s);
    DecimalRoundTrip(n);
    assert IntVal(s) == DecimalValue(DigitPrefix(s));
  }

  /** The white space that `sanitize_text_field()` folds into one space. */
  predicate IsFoldedSpace(c: char) {
    c == '\r' || c == '\n' || c == '\t' || c == ' '
  }

  /** The characters PHP's `trim()` removes by default. */
  predicate IsTrimmed(c: char) {
    c == ' ' || c == '\t' || c == '\n' || c == '\r' || c == '\0' || c == '\U{000B}'
  }

  function DropFoldedSpaces(s: string): (r: string)
    ensures |r| <= |s| && r == s[|s| - |r|..]
    ensures r == [] || !IsFoldedSpace(r[0])
  {
    if s != [] && IsFoldedSpace(s[0]) then DropFoldedSpaces(s[1..]) else s
  }

  /** `preg_replace('/[\r\n\t ]+/', ' ', s)`: every run of folded white space
      becomes a single space. */
  function FoldSpaces(s: string): (r: string)
    decreases |s|
  {
    if s == [] then []
    else if IsFoldedSpace(s[0]) then [' '] + FoldSpaces(DropFoldedSpaces(s))
    else [s[0]] + FoldSpaces(s[1..])
  }

  function TrimLeft(s: string): (r: string)
    ensures |r| <= |s| && r == s[|s| - |r|..]
    ensures r == [] || !IsTrimmed(r[0])
  {
    if s != [] && IsTrimmed(s[0]) then TrimLeft(s[1..]) else s
  }

  function TrimRight(s: string): (r: string)
    ensures |r| <= |s| && r == s[..|r|]
    ensures r == [] || !IsTrimmed(r[|r| - 1])
  {
    if s != [] && IsTrimmed(s[|s| - 1]) then TrimRight(s[..|s| - 1]) else s
  }

  /** `sanitize_text_field()` as far as this model needs it: white space runs
      folded to one space, then the ends trimmed. */
  function SanitizeTextField(s: string): (r: string)
    ensures r == [] || (!IsTrimmed(r[0]) && !IsTrimmed(r[|r| - 1]))
  {
    TrimRight(TrimLeft(FoldSpaces(s)))
  }

  predicate NoSpaces(s: string) {
    forall i :: 0 <= i < |s| ==> !IsFoldedSpace(s[i]) && !IsTrimmed(s[i])
  }

  lemma {:induction false} FoldSpacesKeepsPlainText(s: string)
    requires NoSpaces(s)
    ensures FoldSpaces(s) == s
    decreases |s|
  {
    if s != [] {
      assert NoSpaces(s[1..]) by {
        forall i | 0 <= i < |s[1..]| ensures !IsFoldedSpace(s[1..][i]) && !IsTrimmed(s[1..][i]) {
          assert s[1..][i] == s[i + 1];
        }
      }
      FoldSpacesKeepsPlainText(s[1..]);
    }
  }

  /** A name with no white space (a role slug, a post type name) passes
      through `sanitize_text_field()` unchanged. */
  lemma SanitizeKeepsPlainText(s: string)
    requires NoSpaces(s)
    ensures SanitizeTextField(s) == s
  {
    FoldSpacesKeepsPlainText(s);
  }
}
