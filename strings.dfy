/**
 * The few Python string built-ins the core relies on (`str.lower`,
 * `str.capitalize`, `str.isdigit`, `int(...)`, `"".join(...)`), restricted to
 * ASCII: upper-case letters A-Z and decimal digits 0-9.
 */
module Strings {

  const Digits: string := "0123456789"
  const LowercaseLetters: string := "abcdefghijklmnopqrstuvwxyz"
  const UppercaseLetters: string := "ABCDEFGHIJKLMNOPQRSTUVWXYZ"

  predicate IsUpper(c: char) { 'A' <= c <= 'Z' }
  predicate IsLower(c: char) { 'a' <= c <= 'z' }
  predicate IsDigit(c: char) { '0' <= c <= '9' }

  function LowerChar(c: char): char {
    if IsUpper(c) then (c as int + 32) as char else c
  }

  function UpperChar(c: char): char {
    if IsLower(c) then (c as int - 32) as char else c
  }

  /** `s.lower()` */
  function Lower(s: string): string {
    seq(|s|, i requires 0 <= i < |s| => LowerChar(s[i]))
  }

  /** `s.capitalize()`: the first character upper-cased, the rest lower-cased. */
  function Capitalize(s: string): string {
    if s == [] then [] else [UpperChar(s[0])] + Lower(s[1..])
  }

  /** `int(s)` for a string of ASCII digits (leading zeros allowed). */
  function DecimalValue(s: string): nat
    requires forall k :: 0 <= k < |s| ==> IsDigit(s[k])
  {
    if s == [] then 0
    else
      assert IsDigit(s[|s| - 1]);
      10 * DecimalValue(s[..|s| - 1]) + (s[|s| - 1] as int - '0' as int)
  }

  function DigitChar(d: nat): (c: char)
    requires d < 10
    ensures IsDigit(c) && c as int - '0' as int == d
  {
    ('0' as int + d) as char
  }

  /** `str(n)`: the decimal digits of n, without leading zeros. */
  function DecimalString(n: nat): (s: string)
    ensures |s| >= 1 && forall k :: 0 <= k < |s| ==> IsDigit(s[k])
  {
    if n < 10 then [DigitChar(n)] else DecimalString(n / 10) + [DigitChar(n % 10)]
  }

  /** `int(str(n)) == n` */
  lemma {:induction false} DecimalStringValue(n: nat)
    ensures DecimalValue(DecimalString(n)) == n
  {
    if n >= 10 {
      var s := DecimalString(n);
      assert s[..|s| - 1] == DecimalString(n / 10);
      DecimalStringValue(n / 10);
    }
  }

  /** `"".join(parts)` */
  function Concat(parts: seq<string>): string {
    if parts == [] then [] else parts[0] + Concat(parts[1..])
  }

  lemma {:induction false} ConcatAppend(a: seq<string>, b: seq<string>)
    ensures Concat(a + b) == Concat(a) + Concat(b)
  {
    if a == [] {
      assert a + b == b;
    } else {
      assert (a + b)[1..] == a[1..] + b;
      ConcatAppend(a[1..], b);
    }
  }

  /** Joining one-character strings yields a string of the same length. */
  lemma {:induction false} ConcatOfChars(parts: seq<string>)
    requires forall k :: 0 <= k < |parts| ==> |parts[k]| == 1
    ensures |Concat(parts)| == |parts|
    ensures forall k :: 0 <= k < |parts| ==> Concat(parts)[k] == parts[k][0]
  {
    if parts != [] {
      ConcatOfChars(parts[1..]);
    }
  }

  /** A decimal string has a positive value exactly when some digit is not zero. */
  lemma {:induction false} DecimalValuePositive(s: string)
    requires forall k :: 0 <= k < |s| ==> IsDigit(s[k])
    ensures DecimalValue(s) > 0 <==> exists k :: 0 <= k < |s| && s[k] != '0'
  {
    if s != [] {
      var init := s[..|s| - 1];
      DecimalValuePositive(init);
      if DecimalValue(s) > 0 && s[|s| - 1] == '0' {
        var k :| 0 <= k < |init| && init[k] != '0';
        assert s[k] != '0';
      }
      if exists k :: 0 <= k < |s| && s[k] != '0' {
        var k :| 0 <= k < |s| && s[k] != '0';
        if k < |s| - 1 {
          assert init[k] != '0';
        }
      }
    }
  }
}
