/**
 * Decimal text of integers, as Python's `str(int)` writes it: an optional
 * minus sign followed by the digits, without leading zeros. `ParseInt` reads
 * such text back and serves as the partner that shows `IntToString` loses
 * no information.
 */
module Decimal {
  import opened Wrappers

  predicate IsDigit(c: char) {
    '0' <= c <= '9'
  }

  function DigitChar(d: nat): (c: char)
    requires d < 10
    ensures IsDigit(c) && (c as int) - ('0' as int) == d
  {
    ((('0' as int) + d) as char)
  }

  function DigitValue(c: char): (d: nat)
    requires IsDigit(c)
    ensures d < 10 && DigitChar(d) == c
  {
    (c as int) - ('0' as int)
  }

  predicate AllDigits(s: string) {
    forall i :: 0 <= i < |s| ==> IsDigit(s[i])
  }

  /** The shortest decimal text of `n`. */
  function NatToString(n: nat): (s: string)
    ensures |s| >= 1 && AllDigits(s)
    ensures s[0] == '0' <==> n == 0
    decreases n
  {
    if n < 10 then [DigitChar(n)] else NatToString(n / 10) + [DigitChar(n % 10)]
  }

  /** Python's `str(i)` for an int. */
  function IntToString(i: int): (s: string)
    ensures |s| >= 1
    ensures s[0] == '-' <==> i < 0
  {
    if i < 0 then "-" + NatToString(-i) else NatToString(i)
  }

  /** The number a string of digits denotes (most significant digit first). */
  function ParseDigits(s: string): nat
    requires AllDigits(s)
    decreases |s|
  {
    if s == [] then 0 else 10 * ParseDigits(s[..|s| - 1]) + DigitValue(s[|s| - 1])
  }

  /** Reads decimal text back: `None` for anything `IntToString` never writes (ParseIntOnlyCanonical). */
  function ParseInt(s: string): Option<int> {
    if |s| >= 2 && s[0] == '-' && AllDigits(s[1..]) && s[1] != '0' then Some(-(ParseDigits(s[1..]) as int))
    else if |s| >= 1 && AllDigits(s) && (s[0] != '0' || |s| == 1) then Some(ParseDigits(s))
    else None
  }

  lemma {:induction false} ParseNatToString(n: nat)
    ensures ParseDigits(NatToString(n)) == n
    decreases n
  {
    if n >= 10 {
      var s := NatToString(n / 10) + [DigitChar(n % 10)];
      assert s[..|s| - 1] == NatToString(n / 10);
      ParseNatToString(n / 10);
    }
  }

  /** `str` is invertible: the text of a user id determines the id. */
  lemma IntToStringRoundTrip(i: int)
    ensures ParseInt(IntToString(i)) == Some(i)
  {
    if i < 0 {
      NegativeRoundTrip(-i);
    } else {
      var s := NatToString(i);
      assert IsDigit(s[0]) && s[0] != '-';
      ParseNatToString(i);
    }
  }

  lemma NegativeRoundTrip(n: nat)
    requires n > 0
    ensures ParseInt("-" + NatToString(n)) == Some(-(n as int))
  {
    var digits := NatToString(n);
    var s := "-" + digits;
    assert s[1..] == digits;
    assert digits[0] != '0';
    ParseNatToString(n);
    assert ParseDigits(s[1..]) == n;
  }

  /** Digit text without a leading zero is the text `NatToString` writes for its value. */
  lemma {:induction false} NatToStringOfParse(s: string)
    requires |s| >= 1 && AllDigits(s) && (s[0] != '0' || |s| == 1)
    ensures NatToString(ParseDigits(s)) == s
    decreases |s|
  {
    var d := DigitValue(s[|s| - 1]);
    if |s| == 1 {
      assert s == [DigitChar(d)];
    } else {
      var p := s[..|s| - 1];
      assert p[0] == s[0];
      NatToStringOfParse(p);
      var m := ParseDigits(p);
      assert m != 0 by { assert NatToString(m)[0] != '0'; }
      var n := 10 * m + d;
      assert n / 10 == m && n % 10 == d;
      assert s == p + [s[|s| - 1]];
    }
  }

  /** `ParseInt` accepts exactly the texts `IntToString` writes. */
  lemma ParseIntOnlyCanonical(s: string, i: int)
    requires ParseInt(s) == Some(i)
    ensures s == IntToString(i)
  {
    if |s| >= 2 && s[0] == '-' && AllDigits(s[1..]) && s[1] != '0' {
      var digits := s[1..];
      NatToStringOfParse(digits);
      assert ParseDigits(digits) != 0 by { assert NatToString(ParseDigits(digits))[0] != '0'; }
      assert s == "-" + digits;
    } else {
      NatToStringOfParse(s);
    }
  }

  lemma IntToStringInjective(i: int, j: int)
    ensures IntToString(i) == IntToString(j) <==> i == j
  {
    IntToStringRoundTrip(i);
    IntToStringRoundTrip(j);
  }
}
