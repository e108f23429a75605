/**
 * Python's `int(s)` on a decimal string and `str(n)` on an integer,
 * as far as the backends use them: `int(width)` when validating a size
 * and the port number formatted into the local backend's endpoint.
 * The parse accepts an optional sign followed by one or more ASCII digits.
 */
module Numerals {
  import opened Wrappers

  predicate IsDigit(c: char) { '0' <= c <= '9' }

  predicate AllDigits(s: string) { forall i :: 0 <= i < |s| ==> IsDigit(s[i]) }

  function DigitValue(c: char): (d: nat)
    requires IsDigit(c)
    ensures d < 10
  {
    c as int - '0' as int
  }

  function DigitChar(d: nat): (c: char)
    requires d < 10
    ensures IsDigit(c) && DigitValue(c) == d
  {
    ('0' as int + d) as char
  }

  /** The value of a string of decimal digits, most significant first. */
  function DigitsValue(s: string): nat
    requires AllDigits(s)
  {
    if s == [] then 0 else DigitsValue(s[..|s| - 1]) * 10 + DigitValue(s[|s| - 1])
  }

  /** A string `int()` accepts here: an optional `+` or `-` and at least one digit. */
  predicate IsDecimal(s: string) {
    if |s| > 0 && (s[0] == '+' || s[0] == '-') then |s| > 1 && AllDigits(s[1..])
    else |s| > 0 && AllDigits(s)
  }

  /** `int(s)`; `None` where Python raises `ValueError`. */
  function ParseInt(s: string): (r: Option<int>)
    ensures r.Some? <==> IsDecimal(s)
    ensures r.Some? && s[0] == '-' ==> r.value <= 0
    ensures r.Some? && s[0] != '-' ==> r.value >= 0
  {
    if |s| > 0 && (s[0] == '+' || s[0] == '-') then
      if |s| > 1 && AllDigits(s[1..]) then
        Some(if s[0] == '-' then -(DigitsValue(s[1..]) as int) else DigitsValue(s[1..]))
      else None
    else if |s| > 0 && AllDigits(s) then Some(DigitsValue(s))
    else None
  }

  /** `str(n)` for a non-negative `n`: its shortest decimal digits. */
  function NatToString(n: nat): (r: string)
    ensures |r| > 0 && AllDigits(r)
    ensures r[0] != '0' || n == 0
  {
    if n < 10 then [DigitChar(n)] else NatToString(n / 10) + [DigitChar(n % 10)]
  }

  /** `str(n)`: a minus sign for negative numbers, then the digits. */
  function IntToString(n: int): (r: string)
    ensures IsDecimal(r)
    ensures r[0] == '-' <==> n < 0
  {
    if n < 0 then "-" + NatToString(-n) else NatToString(n)
  }

  lemma {:induction false} DigitsRoundTrip(n: nat)
    ensures DigitsValue(NatToString(n)) == n
  {
    if n >= 10 {
      var s := NatToString(n);
      assert s[..|s| - 1] == NatToString(n / 10);
      DigitsRoundTrip(n / 10);
    }
  }

  /** `int(str(n)) == n` for every integer. */
  lemma ParseShowRoundTrip(n: int)
    ensures ParseInt(IntToString(n)) == Some(n)
  {
    if n < 0 {
      var digits := NatToString(-n);
      ParseNegative(digits);
      DigitsRoundTrip(-n);
    } else {
      ParseUnsigned(NatToString(n));
      DigitsRoundTrip(n);
    }
  }

  lemma ParseNegative(digits: string)
    requires |digits| > 0 && AllDigits(digits)
    ensures ParseInt("-" + digits) == Some(-(DigitsValue(digits) as int))
  {
    assert ("-" + digits)[1..] == digits;
  }

  lemma ParseUnsigned(digits: string)
    requires |digits| > 0 && AllDigits(digits)
    ensures ParseInt(digits) == Some(DigitsValue(digits) as int)
  {
    assert IsDigit(digits[0]);
  }

  function Abs(x: int): nat { if x < 0 then -x else x }

  /** Division rounding toward zero, which is what Python's `int()` does to a float quotient. */
  function TruncDiv(a: int, b: int): (q: int)
    requires b != 0
    ensures Abs(q) == Abs(a) / Abs(b)
    ensures q != 0 ==> (q < 0 <==> (a < 0) != (b < 0))
    ensures 0 <= a && 0 < b ==> q == a / b
  {
    var m := Abs(a) / Abs(b);
    NatQuotient(Abs(a), Abs(b));
    if (a < 0) != (b < 0) then -m else m
  }

  lemma NatQuotient(x: nat, y: nat)
    requires y > 0
    ensures x / y >= 0
  {
  }

  lemma MulAtLeast(a: int, m: int)
    requires a >= 1 && m > 0
    ensures a * m >= m
  {
  }

  lemma ExactQuotient(k: nat, m: nat)
    requires m > 0
    ensures (k * m) / m == k
  {
    var q := (k * m) / m;
    assert (k - q) * m == k * m - q * m;
    assert 0 <= (k - q) * m < m;
    if q < k {
      MulAtLeast(k - q, m);
      assert false;
    } else if q > k {
      MulAtLeast(q - k, m);
      assert false;
    }
  }

  /** Multiplying by `d` and then dividing by `d` gives back the number, whatever the signs. */
  lemma MulDivCancel(x: int, d: int)
    requires d != 0
    ensures TruncDiv(x * d, d) == x
  {
    assert Abs(x * d) == Abs(x) * Abs(d) by {
      if x < 0 && d < 0 { assert x * d == (-x) * (-d); }
      else if x < 0 { assert -(x * d) == (-x) * d; }
      else if d < 0 { assert -(x * d) == x * (-d); }
    }
    ExactQuotient(Abs(x), Abs(d));
    if x != 0 {
      assert (x * d < 0) == ((x < 0) != (d < 0)) by {
        if x > 0 && d > 0 { assert x * d > 0; }
        else if x > 0 { assert x * (-d) > 0; }
        else if d > 0 { assert (-x) * d > 0; }
        else { assert (-x) * (-d) > 0; }
      }
    }
  }
}
