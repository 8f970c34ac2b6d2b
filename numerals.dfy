/** Decimal text for the whole numbers the application prints into templates
    (`${n}`), and the part of JavaScript's `Number.parseInt` that the numeric
    inputs exercise: an optional sign followed by the longest run of decimal
    digits, `NaN` (here `None`) when no digit follows the sign. */
module Numerals {
  import opened Options

  predicate IsDigit(c: char)
  {
    '0' <= c <= '9'
  }

  predicate AllDigits(s: string)
  {
    forall i :: 0 <= i < |s| ==> IsDigit(s[i])
  }

  function DigitChar(d: nat): (c: char)
    requires d < 10
    ensures IsDigit(c) && c as int - '0' as int == d
  {
    ('0' as int + d) as char
  }

  function DigitValue(c: char): nat
    requires IsDigit(c)
  {
    c as int - '0' as int
  }

  /** The decimal spelling of `n`: only digits, and no leading zero unless
      `n` is zero itself. */
  function NatToString(n: nat): (s: string)
    ensures 1 <= |s| && AllDigits(s)
    ensures s[0] == '0' <==> n == 0
  {
    if n < 10 then [DigitChar(n)] else NatToString(n / 10) + [DigitChar(n % 10)]
  }

  /** What a template literal prints for an integer: a minus sign exactly for
      negative numbers, then digits with no leading zero ("0" for zero). */
  function IntToString(n: int): (s: string)
    ensures 1 <= |s|
    ensures s[0] == '-' <==> n < 0
    ensures n >= 0 ==> AllDigits(s)
    ensures n >= 0 ==> (s[0] == '0' <==> n == 0)
    ensures n < 0 ==> 2 <= |s| && AllDigits(s[1..]) && s[1] != '0'
  {
    if n < 0 then "-" + NatToString(-n) else NatToString(n)
  }

  /** The value of a string of decimal digits, read most significant first. */
  function DigitsValue(s: string): nat
    requires AllDigits(s)
  {
    if s == [] then 0 else 10 * DigitsValue(s[..|s| - 1]) + DigitValue(s[|s| - 1])
  }

  /** The length of the run of digits that `s` starts with. */
  function LeadingDigits(s: string): (k: nat)
    ensures k <= |s| && AllDigits(s[..k])
    ensures k < |s| ==> !IsDigit(s[k])
  {
    if s == [] || !IsDigit(s[0]) then 0 else 1 + LeadingDigits(s[1..])
  }

  /** The value of the run of digits `body` starts with; None when it does
      not start with a digit. */
  function ParseDigits(body: string): (r: Option<nat>)
    ensures r.None? <==> LeadingDigits(body) == 0
  {
    var k := LeadingDigits(body);
    if k == 0 then None else Some(DigitsValue(body[..k]))
  }

  /** Whether `s` starts with a minus sign. */
  predicate Negated(s: string)
  {
    |s| > 0 && s[0] == '-'
  }

  /** `s` without its leading sign, if it has one. */
  function Unsigned(s: string): string
  {
    if |s| > 0 && (s[0] == '-' || s[0] == '+') then s[1..] else s
  }

  /** `Number.parseInt(s)` for decimal text: an optional sign, then the run
      of digits; reading stops at the first non-digit, so "2.5" gives 2 and
      "" gives `NaN`. */
  function ParseInt(s: string): (r: Option<int>)
    ensures r.None? <==> LeadingDigits(Unsigned(s)) == 0
    ensures r.Some? ==>
      var d := Unsigned(s)[..LeadingDigits(Unsigned(s))];
      r.value == if Negated(s) then -(DigitsValue(d) as int) else DigitsValue(d)
  {
    if |s| > 0 && s[0] == '-' then
      match ParseDigits(s[1..])
      case Some(v) => Some(-(v as int))
      case None => None
    else if |s| > 0 && s[0] == '+' then
      match ParseDigits(s[1..])
      case Some(v) => Some(v)
      case None => None
    else
      match ParseDigits(s)
      case Some(v) => Some(v)
      case None => None
  }

  lemma {:induction false} DigitsValueOfNatToString(n: nat)
    ensures DigitsValue(NatToString(n)) == n
  {
    if n >= 10 {
      var s := NatToString(n);
      assert s[..|s| - 1] == NatToString(n / 10);
      DigitsValueOfNatToString(n / 10);
    }
  }

  lemma {:induction false} LeadingDigitsOfDigits(d: string, rest: string)
    requires AllDigits(d)
    requires rest == [] || !IsDigit(rest[0])
    ensures LeadingDigits(d + rest) == |d|
  {
    if d != [] {
      assert (d + rest)[1..] == d[1..] + rest;
      LeadingDigitsOfDigits(d[1..], rest);
    }
  }

  lemma ParseDigitsOfNatToString(n: nat, rest: string)
    requires rest == [] || !IsDigit(rest[0])
    ensures ParseDigits(NatToString(n) + rest) == Some(n)
  {
    var d := NatToString(n);
    LeadingDigitsOfDigits(d, rest);
    DigitsValueOfNatToString(n);
    assert (d + rest)[..|d|] == d;
  }

  lemma ParseIntOfNegative(m: nat, rest: string)
    requires rest == [] || !IsDigit(rest[0])
    ensures ParseInt("-" + (NatToString(m) + rest)) == Some(-(m as int))
  {
    var x := NatToString(m) + rest;
    ParseDigitsOfNatToString(m, rest);
    assert ("-" + x)[1..] == x;
  }

  lemma ParseIntOfNonNegative(m: nat, rest: string)
    requires rest == [] || !IsDigit(rest[0])
    ensures ParseInt(NatToString(m) + rest) == Some(m)
  {
    ParseDigitsOfNatToString(m, rest);
    assert IsDigit((NatToString(m) + rest)[0]);
  }

  /** `parseInt` reads back the number a template literal printed, also when
      text that does not start with a digit follows it. */
  lemma {:induction false} ParseIntOfIntToString(n: int, rest: string)
    requires rest == [] || !IsDigit(rest[0])
    ensures ParseInt(IntToString(n) + rest) == Some(n)
  {
    if n < 0 {
      var d := NatToString(-n);
      ParseIntOfNegative(-n, rest);
      assert IntToString(n) == "-" + d;
      assert ("-" + d) + rest == "-" + (d + rest);
    } else {
      ParseIntOfNonNegative(n, rest);
    }
  }

  /** `Number.parseInt(text) || 1`: `NaN` and zero are falsy, so both become
      one; any other parsed integer, negative ones included, is kept. The
      result is never zero. */
  function ParseIntOrOne(text: string): (n: int)
    ensures n != 0
    ensures ParseInt(text).None? || ParseInt(text).value == 0 ==> n == 1
    ensures ParseInt(text).Some? && ParseInt(text).value != 0 ==> n == ParseInt(text).value
  {
    match ParseInt(text)
    case Some(v) => if v == 0 then 1 else v
    case None => 1
  }

  /** Typed digits give back their number, except zero, which becomes one;
      text after the number (a decimal part, say) is ignored. */
  lemma ParseIntOrOneOfNumber(n: int, rest: string)
    requires rest == [] || !IsDigit(rest[0])
    ensures ParseIntOrOne(IntToString(n) + rest) == if n == 0 then 1 else n
  {
    ParseIntOfIntToString(n, rest);
  }
}
