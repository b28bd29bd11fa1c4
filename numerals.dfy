/** Python's conversions between `int` and `str` in base 10: `str(n)` and `int(s)`. */
module Numerals {
  import opened Wrappers

  predicate IsDigit(c: char) {
    '0' <= c <= '9'
  }

  /** The whitespace `int(s)` strips from both ends of `s` (the ASCII part of it). */
  predicate IsSpace(c: char) {
    c == ' ' || c == '\t' || c == '\n' || c == '\r' || c == '\U{000B}' || c == '\U{000C}'
  }

  function DigitChar(d: nat): (c: char)
    requires d < 10
    ensures IsDigit(c) && c as int - '0' as int == d
  {
    ('0' as int + d) as char
  }

  /** `str(n)` for a non-negative `n`: its decimal digits, most significant first, no leading zero. */
  function NatToString(n: nat): (r: string)
    ensures |r| > 0 && IsDigit(r[0]) && IsDigit(r[|r| - 1])
    ensures forall i :: 0 <= i < |r| ==> IsDigit(r[i])
    ensures |r| > 1 ==> r[0] != '0'
    decreases n
  {
    if n < 10 then [DigitChar(n)] else NatToString(n / 10) + [DigitChar(n % 10)]
  }

  /** `str(i)` for any integer. */
  function IntToString(i: int): (r: string)
    ensures |r| > 0 && IsDigit(r[|r| - 1])
    ensures r[0] == '-' <==> i < 0
    ensures i >= 0 ==> IsDigit(r[0])
  {
    if i < 0 then "-" + NatToString(-i) else NatToString(i)
  }

  function StripLeft(s: string): (r: string)
    ensures |r| <= |s|
    ensures r == s[|s| - |r|..]
    ensures r != [] ==> !IsSpace(r[0])
    decreases |s|
  {
    if s != [] && IsSpace(s[0]) then StripLeft(s[1..]) else s
  }

  function StripRight(s: string): (r: string)
    ensures |r| <= |s|
    ensures r == s[..|r|]
    ensures r != [] ==> !IsSpace(r[|r| - 1])
    decreases |s|
  {
    if s != [] && IsSpace(s[|s| - 1]) then StripRight(s[..|s| - 1]) else s
  }

  /** Digits in Python's `int()` syntax: at least one digit, single underscores only between digits. */
  predicate ValidDigits(d: string) {
    && |d| > 0
    && IsDigit(d[0])
    && IsDigit(d[|d| - 1])
    && (forall i :: 0 <= i < |d| ==> IsDigit(d[i]) || d[i] == '_')
    && (forall i :: 0 <= i < |d| - 1 ==> !(d[i] == '_' && d[i + 1] == '_'))
  }

  /** The value of a digit string, the underscores being ignored. */
  function DigitsValue(d: string): nat
    decreases |d|
  {
    if d == [] then 0
    else if IsDigit(d[|d| - 1]) then DigitsValue(d[..|d| - 1]) * 10 + (d[|d| - 1] as int - '0' as int)
    else DigitsValue(d[..|d| - 1])
  }

  /** The number of digits of a digit string, the underscores not counted. */
  function DigitCount(d: string): nat
    decreases |d|
  {
    if d == [] then 0 else DigitCount(d[..|d| - 1]) + (if IsDigit(d[|d| - 1]) then 1 else 0)
  }

  /** The default of `sys.get_int_max_str_digits()`: `int(s)` refuses more digits than this. */
  const MaxStrDigits: nat := 4300

  function ParseDigits(d: string): (r: Option<nat>)
    ensures r.Some? <==> ValidDigits(d) && DigitCount(d) <= MaxStrDigits
    ensures r.Some? ==> r.value == DigitsValue(d)
  {
    if ValidDigits(d) && DigitCount(d) <= MaxStrDigits then Some(DigitsValue(d)) else None
  }

  /** In a string of digits only, every character counts. */
  lemma {:induction false} DigitCountAllDigits(d: string)
    requires forall i :: 0 <= i < |d| ==> IsDigit(d[i])
    ensures DigitCount(d) == |d|
    decreases |d|
  {
    if d != [] {
      DigitCountAllDigits(d[..|d| - 1]);
    }
  }

  /** `int(s)`, where `None` stands for the `ValueError` Python raises for text that is not a base-10 integer. */
  function ParseInt(s: string): (r: Option<int>)
    ensures r.Some? ==> var t := StripRight(StripLeft(s));
      |t| > 0 && (IsDigit(t[0]) || t[0] == '-' || t[0] == '+')
  {
    var t := StripRight(StripLeft(s));
    if |t| > 0 && (t[0] == '-' || t[0] == '+') then
      match ParseDigits(t[1..])
      case None => None
      case Some(v) => var n: int := v; Some(if t[0] == '-' then -n else n)
    else
      match ParseDigits(t)
      case None => None
      case Some(v) => Some(v)
  }

  lemma {:induction false} DigitsValueOfNat(n: nat)
    ensures DigitsValue(NatToString(n)) == n
    decreases n
  {
    var r := NatToString(n);
    if n >= 10 {
      DigitsValueOfNat(n / 10);
      assert r[..|r| - 1] == NatToString(n / 10);
    } else {
      assert r[..|r| - 1] == [];
    }
  }

  lemma ParseNatString(n: nat)
    requires |NatToString(n)| <= MaxStrDigits
    ensures ParseDigits(NatToString(n)) == Some(n)
  {
    DigitsValueOfNat(n);
    DigitCountAllDigits(NatToString(n));
  }

  lemma StripNoSpace(s: string)
    requires |s| > 0 && !IsSpace(s[0]) && !IsSpace(s[|s| - 1])
    ensures StripRight(StripLeft(s)) == s
  {
  }

  /** Text that starts with anything but a space, a sign or a digit is not an integer to `int(s)`. */
  lemma NotAnInteger(s: string)
    requires |s| > 0 && !IsSpace(s[0]) && !IsSpace(s[|s| - 1])
    requires !IsDigit(s[0]) && s[0] != '-' && s[0] != '+'
    ensures ParseInt(s).None?
  {
    StripNoSpace(s);
  }

  /** A string of more than 4300 digits is refused, whatever its value. */
  lemma DigitLimit(d: string)
    requires |d| > MaxStrDigits && forall i :: 0 <= i < |d| ==> IsDigit(d[i])
    ensures ParseInt(d).None?
  {
    StripNoSpace(d);
    DigitCountAllDigits(d);
  }

  lemma NatRoundTrip(n: nat)
    requires |NatToString(n)| <= MaxStrDigits
    ensures ParseInt(NatToString(n)) == Some(n)
  {
    var r := NatToString(n);
    StripNoSpace(r);
    assert StripRight(StripLeft(r)) == r;
    assert !(r[0] == '-' || r[0] == '+');
    ParseNatString(n);
  }

  lemma NegativeRoundTrip(n: nat)
    requires n > 0 && |NatToString(n)| <= MaxStrDigits
    ensures ParseInt("-" + NatToString(n)) == Some(-(n as int))
  {
    var r := "-" + NatToString(n);
    StripNoSpace(r);
    assert StripRight(StripLeft(r)) == r;
    assert r[1..] == NatToString(n);
    ParseNatString(n);
  }

  /** `int(str(i)) == i`: the two conversions are inverse, for every integer of at most 4300 digits. */
  lemma IntRoundTrip(i: int)
    requires |NatToString(if i < 0 then -i else i)| <= MaxStrDigits
    ensures ParseInt(IntToString(i)) == Some(i)
  {
    if i < 0 {
      var n: nat := -i;
      assert IntToString(i) == "-" + NatToString(n);
      NegativeRoundTrip(n);
    } else {
      var n: nat := i;
      assert IntToString(i) == NatToString(n);
      NatRoundTrip(n);
    }
  }
}
