/**
 * The few pieces of Python text handling the payload builder relies on:
 * `str()` of an integer, `int()` of a number, the `f"{x:.2f}"` format and
 * `str.split(sep, 1)`. Numbers are exact reals here; the rounding that binary
 * floating point adds before formatting is not modelled.
 */
module Text {
  import opened Wrappers

  predicate IsDigit(c: char) { '0' <= c <= '9' }

  predicate AllDigits(s: string) { forall i :: 0 <= i < |s| ==> IsDigit(s[i]) }

  function DigitValue(c: char): nat
    requires IsDigit(c)
  {
    c as int - '0' as int
  }

  function DigitChar(d: nat): (c: char)
    requires d < 10
    ensures IsDigit(c) && DigitValue(c) == d
  {
    ('0' as int + d) as char
  }

  /** The number a string of decimal digits denotes (most significant digit first). */
  function DigitsValue(s: string): nat
    requires AllDigits(s)
    decreases |s|
  {
    if s == [] then 0 else DigitsValue(s[..|s| - 1]) * 10 + DigitValue(s[|s| - 1])
  }

  /** Python's `str(n)` for a non-negative integer: its decimal digits, without leading zeros. */
  function NatToString(n: nat): (s: string)
    ensures 1 <= |s| && AllDigits(s)
    ensures s[0] == '0' ==> n == 0 && s == "0"
    decreases n
  {
    if n < 10 then [DigitChar(n)] else NatToString(n / 10) + [DigitChar(n % 10)]
  }

  /** Reading the digits back gives the number that was written. */
  lemma {:induction false} NatToStringRoundTrip(n: nat)
    ensures DigitsValue(NatToString(n)) == n
  {
    if n >= 10 {
      var s := NatToString(n);
      NatToStringRoundTrip(n / 10);
      assert s[..|s| - 1] == NatToString(n / 10);
    }
  }

  /** Distinct numbers are written differently. */
  lemma NatToStringInjective(m: nat, n: nat)
    requires NatToString(m) == NatToString(n)
    ensures m == n
  {
    NatToStringRoundTrip(m);
    NatToStringRoundTrip(n);
  }

  /** Python's `str(i)` for any integer: a minus sign in front of a negative number. */
  function IntToString(i: int): string
  {
    if i < 0 then "-" + NatToString(-i) else NatToString(i)
  }

  /** The integer an optionally signed decimal text denotes (the inverse reading of `IntToString`). */
  function SignedValue(s: string): int
    requires |s| >= 1 && (if s[0] == '-' then AllDigits(s[1..]) else AllDigits(s))
  {
    if s[0] == '-' then -(DigitsValue(s[1..]) as int) else DigitsValue(s)
  }

  lemma IntToStringRoundTrip(i: int)
    ensures var s := IntToString(i);
      |s| >= 1 && (if s[0] == '-' then AllDigits(s[1..]) else AllDigits(s)) && SignedValue(s) == i
  {
    if i < 0 {
      NatToStringRoundTrip(-i);
      assert IntToString(i)[1..] == NatToString(-i);
    } else {
      NatToStringRoundTrip(i);
    }
  }

  /** Python's `int(x)` of a number: truncation toward zero. */
  function Trunc(x: real): (n: int)
    ensures 0.0 <= x ==> 0 <= n && n as real <= x < n as real + 1.0
    ensures x < 0.0 ==> n <= 0 && n as real - 1.0 < x <= n as real
  {
    if x >= 0.0 then x.Floor else -((-x).Floor)
  }

  function Abs(x: real): real { if x < 0.0 then -x else x }

  /** Nearest integer to a non-negative `y`, ties to the even neighbour (Python's formatting rule). */
  function RoundHalfEven(y: real): (n: nat)
    requires 0.0 <= y
    ensures y - 0.5 <= n as real <= y + 0.5
    ensures (n as real == y - 0.5 || n as real == y + 0.5) ==> n % 2 == 0
  {
    var f := y.Floor;
    var d := y - f as real;
    if d < 0.5 then f
    else if d > 0.5 then f + 1
    else if f % 2 == 0 then f
    else f + 1
  }

  /** The number of hundredths that `f"{x:.2f}"` prints for `x`, sign apart. */
  function Cents(x: real): nat
  {
    RoundHalfEven(Abs(x) * 100.0)
  }

  /** The digits in front of the point of a fixed-point text with two decimals. */
  function IntegerPart(s: string): string
    requires |s| >= 3
  {
    if |s| >= 4 && s[0] == '-' then s[1..|s| - 3] else s[..|s| - 3]
  }

  /**
   * A text of the form `[-]D+.DD`: an optional minus sign, at least one digit,
   * a point and exactly two digits.
   */
  predicate IsFixed2Text(s: string)
  {
    |s| >= 4 && s[|s| - 3] == '.' && IsDigit(s[|s| - 2]) && IsDigit(s[|s| - 1])
    && |IntegerPart(s)| >= 1 && AllDigits(IntegerPart(s))
  }

  /** The number of hundredths a `[-]D+.DD` text denotes, sign apart. */
  function Fixed2Magnitude(s: string): nat
    requires IsFixed2Text(s)
  {
    DigitsValue(IntegerPart(s)) * 100 + DigitValue(s[|s| - 2]) * 10 + DigitValue(s[|s| - 1])
  }

  /**
   * Python's `f"{x:.2f}"`: a minus sign exactly when `x` is negative (so a small
   * negative amount prints as "-0.00"), the integer part, a point and two decimals.
   */
  function Fixed2(x: real): (s: string)
    ensures IsFixed2Text(s)
    ensures s[0] == '-' <==> x < 0.0
  {
    var c := Cents(x);
    var sign := if x < 0.0 then "-" else "";
    var s := sign + NatToString(c / 100) + "." + [DigitChar(c % 100 / 10), DigitChar(c % 10)];
    assert IntegerPart(s) == NatToString(c / 100);
    s
  }

  /** The text `Fixed2(x)` denotes `x` rounded to the nearest hundredth. */
  lemma Fixed2Denotes(x: real)
    ensures Fixed2Magnitude(Fixed2(x)) == Cents(x)
    ensures Abs(x) * 100.0 - 0.5 <= Cents(x) as real <= Abs(x) * 100.0 + 0.5
  {
    var c := Cents(x);
    var s := Fixed2(x);
    assert IntegerPart(s) == NatToString(c / 100);
    NatToStringRoundTrip(c / 100);
    assert DigitValue(s[|s| - 2]) == c % 100 / 10;
    assert DigitValue(s[|s| - 1]) == c % 10;
  }

  /**
   * Python's `s.split(sep, 1)` unpacked into exactly two names: the text before the
   * first `sep` and everything after it; `None` when `sep` does not occur (the
   * unpacking then raises).
   */
  function SplitFirst(s: string, sep: char): (r: Option<(string, string)>)
    ensures r.None? <==> sep !in s
    ensures r.Some? ==> r.value.0 + [sep] + r.value.1 == s && sep !in r.value.0
  {
    if s == [] then None
    else if s[0] == sep then Some(([], s[1..]))
    else
      match SplitFirst(s[1..], sep)
      case None => None
      case Some(parts) => Some(([s[0]] + parts.0, parts.1))
  }

  /** Joining two texts with `sep` and splitting at the first `sep` gives them back when the first has none. */
  lemma {:induction false} SplitFirstOfJoin(a: string, b: string, sep: char)
    requires sep !in a
    ensures SplitFirst(a + [sep] + b, sep) == Some((a, b))
  {
    if a != [] {
      assert (a + [sep] + b)[1..] == a[1..] + [sep] + b;
      SplitFirstOfJoin(a[1..], b, sep);
      assert [a[0]] + a[1..] == a;
    }
  }
}
