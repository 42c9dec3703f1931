/** Decimal rendering of integers, as Python's `str(int)` and fixed-width
    zero padding produce it, together with the reader that inverts it. */
module Numerals {

  import opened Common

  predicate IsDigit(c: char)
  {
    '0' <= c <= '9'
  }

  predicate AllDigits(s: string)
  {
    forall i :: 0 <= i < |s| ==> IsDigit(s[i])
  }

  function Digit(d: nat): (c: char)
    requires d < 10
    ensures IsDigit(c)
  {
    ['0', '1', '2', '3', '4', '5', '6', '7', '8', '9'][d]
  }

  function DigitValue(c: char): (d: nat)
    requires IsDigit(c)
    ensures d < 10
  {
    (c as int - '0' as int) as nat
  }

  lemma {:induction false} DigitValueOfDigit(d: nat)
    requires d < 10
    ensures DigitValue(Digit(d)) == d
  {
  }

  /** `str(n)` for a natural number: no leading zeros, "0" for zero. */
  function NatToString(n: nat): (s: string)
    ensures |s| >= 1 && AllDigits(s)
    ensures |s| > 1 ==> s[0] != '0'
  {
    if n < 10 then [Digit(n)] else NatToString(n / 10) + [Digit(n % 10)]
  }

  /** `str(i)` for an integer: a minus sign before the magnitude when negative. */
  function IntToString(i: int): (s: string)
    ensures |s| >= 1
  {
    if i < 0 then "-" + NatToString(-i) else NatToString(i)
  }

  /** The value of a string of decimal digits (leading zeros allowed). */
  function ParseDigits(s: string): nat
    requires AllDigits(s)
  {
    if s == [] then 0 else 10 * ParseDigits(s[..|s| - 1]) + DigitValue(s[|s| - 1])
  }

  /** Reads back what IntToString writes. */
  function ParseInt(s: string): Option<int>
  {
    if |s| >= 2 && s[0] == '-' && AllDigits(s[1..]) then Some(0 - ParseDigits(s[1..]) as int)
    else if |s| >= 1 && AllDigits(s) then Some(ParseDigits(s))
    else None
  }

  lemma {:induction false} NatToStringRoundTrip(n: nat)
    ensures ParseDigits(NatToString(n)) == n
  {
    var s := NatToString(n);
    if n < 10 {
      assert s[..|s| - 1] == [];
      DigitValueOfDigit(n);
    } else {
      var prefix := NatToString(n / 10);
      assert s == prefix + [Digit(n % 10)];
      assert s[..|s| - 1] == prefix;
      NatToStringRoundTrip(n / 10);
      DigitValueOfDigit(n % 10);
    }
  }

  lemma {:induction false} IntToStringRoundTrip(i: int)
    ensures ParseInt(IntToString(i)) == Some(i)
  {
    if i < 0 {
      NegativeRoundTrip(-i);
    } else {
      NatToStringRoundTrip(i);
      ParseNonNegative(NatToString(i), i);
    }
  }

  lemma {:induction false} NegativeRoundTrip(n: nat)
    requires n > 0
    ensures ParseInt(IntToString(-(n as int))) == Some(-(n as int))
  {
    NatToStringRoundTrip(n);
    ParseNegative(IntToString(-(n as int)), NatToString(n), n);
  }

  lemma {:induction false} ParseNegative(s: string, t: string, v: nat)
    requires s == "-" + t && |t| >= 1 && AllDigits(t) && ParseDigits(t) == v
    ensures ParseInt(s) == Some(-(v as int))
  {
    assert s[1..] == t;
  }

  lemma {:induction false} ParseNonNegative(s: string, v: nat)
    requires |s| >= 1 && AllDigits(s) && ParseDigits(s) == v
    ensures ParseInt(s) == Some(v)
  {
    assert IsDigit(s[0]);
  }

  /** Exactly two digits: the `02d` field of a number below 100. */
  function Pad2(n: nat): (s: string)
    requires n < 100
    ensures |s| == 2 && AllDigits(s) && ParseDigits(s) == n
  {
    var s := [Digit(n / 10), Digit(n % 10)];
    assert s[..1] == [Digit(n / 10)];
    assert [Digit(n / 10)][..0] == [];
    DigitValueOfDigit(n / 10);
    DigitValueOfDigit(n % 10);
    assert ParseDigits(s[..1]) == n / 10;
    s
  }

  /** Exactly three digits: the `03d` field of a number below 1000. */
  function Pad3(n: nat): (s: string)
    requires n < 1000
    ensures |s| == 3 && AllDigits(s) && ParseDigits(s) == n
  {
    var s := Pad2(n / 10) + [Digit(n % 10)];
    assert s[..2] == Pad2(n / 10);
    DigitValueOfDigit(n % 10);
    s
  }

  /** At least two digits: `str(n)`, zero-padded on the left to width 2. */
  function PadAtLeast2(n: nat): (s: string)
    ensures |s| >= 2 && AllDigits(s) && ParseDigits(s) == n
    ensures |s| == 2 <==> n < 100
  {
    if n < 100 then Pad2(n)
    else
      NatToStringRoundTrip(n);
      NatToStringLength(n);
      NatToString(n)
  }

  lemma {:induction false} NatToStringLength(n: nat)
    ensures n >= 100 ==> |NatToString(n)| >= 3
    ensures n >= 10 ==> |NatToString(n)| >= 2
  {
    if n >= 10 {
      NatToStringLength(n / 10);
    }
  }
}
