/**
 * Decimal rendering of an integer, as Go's `strconv.Itoa` does it: an optional '-'
 * followed by the digits of the magnitude, most significant first, with no leading
 * zeros. `Parse` reads such a string back and is the partner of the round trip.
 */
module Decimal {
  import opened Wrappers

  predicate IsDigit(c: char) {
    '0' <= c <= '9'
  }

  function DigitChar(d: nat): (c: char)
    requires d < 10
    ensures IsDigit(c) && DigitValue(c) == d
  {
    ('0' as int + d) as char
  }

  function DigitValue(c: char): nat
    requires IsDigit(c)
  {
    c as int - '0' as int
  }

  /** The digits of `n`, most significant first. */
  function NatToDecimal(n: nat): string
  {
    if n < 10 then [DigitChar(n)] else NatToDecimal(n / 10) + [DigitChar(n % 10)]
  }

  /** `strconv.Itoa`. */
  function Itoa(n: int): string
  {
    if n < 0 then "-" + NatToDecimal(-n) else NatToDecimal(n)
  }

  predicate AllDigits(s: string) {
    forall i :: 0 <= i < |s| ==> IsDigit(s[i])
  }

  /** The value of a string of digits, read most significant first. */
  function DigitsValue(s: string): nat
    requires AllDigits(s)
  {
    if s == [] then 0 else DigitsValue(s[..|s| - 1]) * 10 + DigitValue(s[|s| - 1])
  }

  /** Reads an optionally signed decimal integer; `None` for anything else. */
  function Parse(s: string): Option<int>
  {
    if |s| > 1 && s[0] == '-' && AllDigits(s[1..]) then
      var magnitude: int := DigitsValue(s[1..]);
      Some(-magnitude)
    else if |s| > 0 && AllDigits(s) then
      var value: int := DigitsValue(s);
      Some(value)
    else None
  }

  /** The digits of `n` are a non-empty digit string without a leading zero, of value `n`. */
  lemma {:induction false} NatToDecimalCorrect(n: nat)
    ensures var s := NatToDecimal(n);
      |s| > 0 && AllDigits(s) && DigitsValue(s) == n && (|s| > 1 ==> s[0] != '0')
  {
    var s := NatToDecimal(n);
    if n >= 10 {
      NatToDecimalCorrect(n / 10);
      var p := NatToDecimal(n / 10);
      assert s == p + [DigitChar(n % 10)];
      assert s[..|s| - 1] == p;
      assert s[0] == p[0];
    }
  }

  /** Round trip: rendering then parsing gives the integer back. */
  lemma ItoaRoundTrip(n: int)
    ensures Parse(Itoa(n)) == Some(n)
  {
    if n < 0 {
      NatToDecimalCorrect(-n);
      var s := Itoa(n);
      assert s[1..] == NatToDecimal(-n);
    } else {
      NatToDecimalCorrect(n);
      assert Itoa(n)[0] != '-';
    }
  }

  /** Distinct integers render to distinct strings. */
  lemma ItoaInjective(m: int, n: int)
    ensures Itoa(m) == Itoa(n) ==> m == n
  {
    ItoaRoundTrip(m);
    ItoaRoundTrip(n);
  }

  /** The form of the rendering: the digits of the magnitude, led by '-' exactly when negative. */
  lemma ItoaShape(n: int)
    ensures var s := Itoa(n);
      |s| > 0 && (s[0] == '-' <==> n < 0) && AllDigits(if n < 0 then s[1..] else s)
  {
    var m: nat := if n < 0 then -n else n;
    NatToDecimalCorrect(m);
    if n < 0 {
      assert Itoa(n)[1..] == NatToDecimal(m);
    }
  }

  lemma ItoaExample()
    ensures Itoa(9090) == "9090" && Itoa(0) == "0" && Itoa(-7) == "-7"
  {
  }
}
