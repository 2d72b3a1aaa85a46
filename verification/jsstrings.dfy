/** The few JavaScript string operations the travel-order code uses:
    `String(n)` on an integer, `padStart` and `slice`. */
module JsStrings {

  predicate IsDigitChar(c: char) {
    '0' <= c <= '9'
  }

  predicate AllDigits(s: string) {
    forall i :: 0 <= i < |s| ==> IsDigitChar(s[i])
  }

  function Digit(d: nat): (c: char)
    requires d < 10
    ensures IsDigitChar(c)
  {
    ('0' as int + d) as char
  }

  function DigitValue(c: char): (d: nat)
    requires IsDigitChar(c)
    ensures d < 10 && Digit(d) == c
  {
    c as int - '0' as int
  }

  /** `String(n)` for a natural number: its decimal digits, without leading zeros. */
  function NatToDecimal(n: nat): (s: string)
    ensures 1 <= |s|
    ensures AllDigits(s)
    ensures s[|s| - 1] == Digit(n % 10)
    ensures n < 10 <==> |s| == 1
    ensures |s| > 1 ==> s[0] != '0'
  {
    if n < 10 then [Digit(n)] else NatToDecimal(n / 10) + [Digit(n % 10)]
  }

  /** The number a string of decimal digits denotes. */
  function DecimalValue(s: string): nat
    requires AllDigits(s)
  {
    if s == [] then 0 else DecimalValue(s[..|s| - 1]) * 10 + DigitValue(s[|s| - 1])
  }

  /** Reading back the decimal string of `n` gives `n`. */
  lemma {:induction false} DecimalRoundTrip(n: nat)
    ensures DecimalValue(NatToDecimal(n)) == n
  {
    var s := NatToDecimal(n);
    if n >= 10 {
      DecimalRoundTrip(n / 10);
      assert s[..|s| - 1] == NatToDecimal(n / 10);
    }
  }

  /** `String(i)` for an integer: a minus sign before the digits of a negative one. */
  function IntToString(i: int): (s: string)
    ensures i >= 0 ==> s == NatToDecimal(i)
    ensures i < 0 ==> |s| >= 2 && s[0] == '-' && s[1..] == NatToDecimal(-i)
  {
    if i < 0 then "-" + NatToDecimal(-i) else NatToDecimal(i)
  }

  /** The strings `String(i)` produces: digits without leading zeros, after
      a minus sign when negative (and then not `-0`). */
  predicate IsIntString(s: string) {
    if |s| > 0 && s[0] == '-' then
      |s| >= 2 && AllDigits(s[1..]) && s[1] != '0'
    else
      |s| >= 1 && AllDigits(s) && (|s| > 1 ==> s[0] != '0')
  }

  /** The integer a signed decimal string denotes. */
  function IntValue(s: string): int
    requires IsIntString(s)
  {
    if s[0] == '-' then 0 - DecimalValue(s[1..]) else DecimalValue(s) as int
  }

  /** `String(i)` has the integer form and reads back as `i`. */
  lemma IntRoundTrip(i: int)
    ensures IsIntString(IntToString(i))
    ensures IntValue(IntToString(i)) == i
  {
    var s := IntToString(i);
    if i < 0 {
      DecimalRoundTrip(-i);
      assert s[1..] == NatToDecimal(-i);
      assert -i >= 1;
    } else {
      DecimalRoundTrip(i);
      assert s[0] != '-';
    }
  }

  /** `s.padStart(width, fill)` with a one-character fill: the fill repeated
      in front until the string is `width` long; longer strings are kept. */
  function PadStart(s: string, width: nat, fill: char): (r: string)
    ensures |r| == if |s| < width then width else |s|
    ensures r[|r| - |s|..] == s
    ensures forall i :: 0 <= i < |r| - |s| ==> r[i] == fill
  {
    if |s| < width then seq(width - |s|, _ => fill) + s else s
  }

  /** `s.slice(start)`: a negative start counts from the end and is clamped at 0. */
  function Slice(s: string, start: int): (r: string)
    ensures start < 0 ==> |r| == (if |s| + start < 0 then |s| else -start)
    ensures start >= 0 ==> |r| == (if start > |s| then 0 else |s| - start)
    ensures s[|s| - |r|..] == r
  {
    if start < 0 then
      (if |s| + start < 0 then s else s[|s| + start..])
    else if start > |s| then [] else s[start..]
  }

  /** The two-character zero-padded decimal form of a number below 100. */
  lemma PadTwoDigits(n: nat)
    requires n < 100
    ensures PadStart(NatToDecimal(n), 2, '0') == [Digit(n / 10), Digit(n % 10)]
  {
    if n >= 10 {
      var s := NatToDecimal(n);
      assert s == NatToDecimal(n / 10) + [Digit(n % 10)];
      assert NatToDecimal(n / 10) == [Digit(n / 10)];
    }
  }

  /** The last two characters of the decimal form of a number of two or more digits. */
  lemma LastTwoDigits(n: nat)
    requires n >= 10
    ensures Slice(NatToDecimal(n), -2) == [Digit(n / 10 % 10), Digit(n % 10)]
  {
    var s := NatToDecimal(n);
    var t := NatToDecimal(n / 10);
    assert s == t + [Digit(n % 10)];
    assert |s| >= 2;
    assert Slice(s, -2) == s[|s| - 2..];
    assert s[|s| - 2] == t[|t| - 1] == Digit(n / 10 % 10);
    assert s[|s| - 1] == Digit(n % 10);
    assert s[|s| - 2..] == [s[|s| - 2], s[|s| - 1]];
  }

  /** The last two characters of `String(i)` when `i` has two or more digits,
      whatever its sign. */
  lemma LastTwoOfInt(i: int)
    requires i >= 10 || i <= -10
    ensures var a := if i < 0 then -i else i;
            Slice(IntToString(i), -2) == [Digit(a / 10 % 10), Digit(a % 10)]
  {
    var a := if i < 0 then -i else i;
    LastTwoDigits(a);
    if i < 0 {
      var s := IntToString(i);
      assert s == "-" + NatToDecimal(a);
      assert Slice(s, -2) == s[|s| - 2..];
    }
  }
}
