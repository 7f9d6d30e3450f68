/**
 * Decimal integers as Kotlin reads and prints them: `String.toIntOrNull()`
 * (and `toInt()`, which throws where `toIntOrNull` gives null) accepts an
 * optional `+` or `-` followed by at least one digit, with a value in the
 * 32-bit `Int` range; `Int.toString()` prints the shortest decimal form.
 * Only ASCII digits are modelled.
 */
module Numbers {
  import opened Wrappers

  const IntMin: int := -0x8000_0000
  const IntMax: int := 0x7FFF_FFFF

  predicate IsInt32(n: int) { IntMin <= n <= IntMax }

  predicate IsDigit(c: char) { '0' <= c <= '9' }

  predicate AllDigits(s: string) {
    forall i :: 0 <= i < |s| ==> IsDigit(s[i])
  }

  function DigitValue(c: char): nat
    requires IsDigit(c)
  {
    c as int - '0' as int
  }

  function DigitChar(d: nat): (c: char)
    requires d < 10
    ensures IsDigit(c) && DigitValue(c) == d
  {
    ('0' as int + d) as char
  }

  /** The value of a string of digits, most significant first; leading zeros add nothing. */
  function DigitsValue(s: string): nat
    requires AllDigits(s)
  {
    if s == [] then 0 else DigitsValue(s[..|s| - 1]) * 10 + DigitValue(s[|s| - 1])
  }

  /** `Int.toString()` for a non-negative value. */
  function NatToString(n: nat): (s: string)
    ensures |s| >= 1
  {
    if n < 10 then [DigitChar(n)] else NatToString(n / 10) + [DigitChar(n % 10)]
  }

  /** `Int.toString()`. */
  function IntToString(n: int): string {
    if n < 0 then "-" + NatToString(-n) else NatToString(n)
  }

  function Bounded(v: int): (r: Option<int>)
    ensures r.Some? <==> IsInt32(v)
    ensures r.Some? ==> r.value == v
  {
    if IsInt32(v) then Some(v) else None
  }

  /** `String.toIntOrNull()`; `None` is where `String.toInt()` throws. */
  function ParseInt(s: string): Option<int> {
    if s == [] then None
    else if s[0] == '-' || s[0] == '+' then
      if |s| == 1 || !AllDigits(s[1..]) then None
      else if s[0] == '-' then Bounded(-(DigitsValue(s[1..]) as int))
      else Bounded(DigitsValue(s[1..]))
    else if AllDigits(s) then Bounded(DigitsValue(s))
    else None
  }

  /** Printing a natural number gives digits whose value is that number. */
  lemma {:induction false} NatToStringValue(n: nat)
    ensures AllDigits(NatToString(n)) && DigitsValue(NatToString(n)) == n
    ensures IsDigit(NatToString(n)[0])
  {
    if n >= 10 {
      NatToStringValue(n / 10);
      var s := NatToString(n);
      assert s[..|s| - 1] == NatToString(n / 10);
    }
  }

  /** `toIntOrNull` reads back what `toString` printed, for every 32-bit integer. */
  lemma ParseIntToString(n: int)
    requires IsInt32(n)
    ensures ParseInt(IntToString(n)) == Some(n)
  {
    if n < 0 {
      ParseNegative(n);
    } else {
      ParseNonNegative(n);
    }
  }

  lemma ParseNegative(n: int)
    requires IntMin <= n < 0
    ensures ParseInt(IntToString(n)) == Some(n)
  {
    var t := NatToString(-n);
    NatToStringValue(-n);
    SignedDigits('-', t);
    assert ParseInt("-" + t) == Bounded(-(DigitsValue(t) as int));
  }

  lemma SignedDigits(sign: char, t: string)
    requires AllDigits(t) && t != []
    ensures var s := [sign] + t; |s| > 1 && s[0] == sign && s[1..] == t && AllDigits(s[1..])
  {
  }

  lemma ParseNonNegative(n: int)
    requires 0 <= n <= IntMax
    ensures ParseInt(IntToString(n)) == Some(n)
  {
    var s := NatToString(n);
    NatToStringValue(n);
    assert s == IntToString(n);
    assert s[0] != '-' && s[0] != '+';
    assert ParseInt(s) == Bounded(DigitsValue(s));
  }

  /** A parsed value is a 32-bit integer, and parsing needs at least one digit. */
  lemma ParseIntShape(s: string)
    requires ParseInt(s).Some?
    ensures IsInt32(ParseInt(s).value)
    ensures exists i :: 0 <= i < |s| && IsDigit(s[i])
  {
    if s[0] == '-' || s[0] == '+' {
      assert IsDigit(s[1..][0]);
      assert IsDigit(s[1]);
    } else {
      assert IsDigit(s[0]);
    }
  }

  /** A string of digits with a value in range parses to that value: leading zeros are dropped. */
  lemma ParseDigits(s: string)
    requires s != [] && AllDigits(s) && DigitsValue(s) <= IntMax
    ensures ParseInt(s) == Some(DigitsValue(s))
  {
  }

  /** Two digits parse to at most 99. */
  lemma TwoDigitsValue(s: string)
    requires |s| == 2 && AllDigits(s)
    ensures DigitsValue(s) == 10 * DigitValue(s[0]) + DigitValue(s[1]) <= 99
  {
    var h := s[..1];
    assert h[..0] == [] && h[0] == s[0];
    assert DigitsValue(h) == DigitValue(s[0]);
  }
}
