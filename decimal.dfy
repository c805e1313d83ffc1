/**
 * Decimal rendering of integers, as an f-string renders an `int`
 * (an optional minus sign followed by the digits, no leading zeros),
 * together with a reader that gets the number back.
 */
module Decimal {

  predicate IsDigit(c: char) {
    '0' <= c <= '9'
  }

  function DigitChar(d: nat): (c: char)
    requires d < 10
    ensures IsDigit(c)
  {
    ('0' as int + d) as char
  }

  function DigitValue(c: char): (d: nat)
    requires IsDigit(c)
    ensures d < 10 && DigitChar(d) == c
  {
    c as int - '0' as int
  }

  /** The decimal digits of `n`, most significant first. */
  function Digits(n: nat): (s: string)
    ensures 1 <= |s|
    ensures forall i :: 0 <= i < |s| ==> IsDigit(s[i])
    ensures n < 10 <==> |s| == 1
    ensures n == 0 <==> s == "0"
    ensures s[0] != '0' || |s| == 1
  {
    if n < 10 then [DigitChar(n)] else Digits(n / 10) + [DigitChar(n % 10)]
  }

  /** The number a string of digits denotes. */
  function DigitsValue(s: string): nat
    requires forall i :: 0 <= i < |s| ==> IsDigit(s[i])
  {
    if s == [] then 0 else DigitsValue(s[..|s| - 1]) * 10 + DigitValue(s[|s| - 1])
  }

  lemma {:induction false} DigitsValueOfDigits(n: nat)
    ensures DigitsValue(Digits(n)) == n
  {
    if n >= 10 {
      var s := Digits(n);
      assert s[..|s| - 1] == Digits(n / 10);
      DigitsValueOfDigits(n / 10);
    }
  }

  /** How `str(n)` renders an integer: a minus sign only for a negative number, and no leading zero. */
  function Show(n: int): (s: string)
    ensures 1 <= |s|
    ensures s[0] == '-' <==> n < 0
    ensures n == 0 <==> s == "0"
    ensures |s| > 1 ==> s[0] != '0' && (s[0] == '-' ==> s[1] != '0')
    ensures forall i :: (if n < 0 then 1 else 0) <= i < |s| ==> IsDigit(s[i])
  {
    if n < 0 then "-" + Digits(-n) else Digits(n)
  }

  /** The longest prefix of `s` made of digits. */
  function LeadingDigits(s: string): (p: string)
    ensures p <= s
    ensures forall i :: 0 <= i < |p| ==> IsDigit(p[i])
  {
    if s != [] && IsDigit(s[0]) then [s[0]] + LeadingDigits(s[1..]) else []
  }

  /** Reads the integer at the head of `s`: an optional minus sign, then digits. */
  function ReadInt(s: string): int {
    if s != [] && s[0] == '-' then -(DigitsValue(LeadingDigits(s[1..])) as int) else DigitsValue(LeadingDigits(s))
  }

  lemma {:induction false} LeadingDigitsStop(d: string, rest: string)
    requires forall i :: 0 <= i < |d| ==> IsDigit(d[i])
    requires rest == [] || !IsDigit(rest[0])
    ensures LeadingDigits(d + rest) == d
  {
    if d != [] {
      assert (d + rest)[1..] == d[1..] + rest;
      LeadingDigitsStop(d[1..], rest);
    }
  }

  /** Whatever follows a rendered integer, as long as it does not start with a digit, it reads back. */
  lemma {:induction false} ReadShow(n: int, rest: string)
    requires rest == [] || !IsDigit(rest[0])
    ensures ReadInt(Show(n) + rest) == n
  {
    var text := Show(n) + rest;
    if n < 0 {
      var d := Digits(-n);
      assert text == "-" + (d + rest);
      assert text[0] == '-' && text[1..] == d + rest;
      LeadingDigitsStop(d, rest);
      DigitsValueOfDigits(-n);
      assert ReadInt(text) == -(DigitsValue(d) as int);
    } else {
      var d := Digits(n);
      assert text == d + rest && text[0] != '-';
      LeadingDigitsStop(d, rest);
      DigitsValueOfDigits(n);
      assert ReadInt(text) == DigitsValue(d);
    }
  }
}
