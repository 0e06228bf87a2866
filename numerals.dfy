/**
 * Decimal literals as the frame parser reads them with Python's `int(...)` and
 * `float(...)`, and `str(n)` for an integer, which builds the dictionary key
 * "Sensor n". Only sign, decimal digits and an optional fractional part are
 * modelled.
 */
module Numerals {
  import opened Wrappers

  predicate IsDigit(c: char) {
    '0' <= c <= '9'
  }

  predicate AllDigits(s: string) {
    forall i :: 0 <= i < |s| ==> IsDigit(s[i])
  }

  /** Characters a decimal literal may consist of. */
  predicate NumeralChar(c: char) {
    IsDigit(c) || c == '+' || c == '-' || c == '.'
  }

  predicate NumeralText(s: string) {
    |s| > 0 && forall i :: 0 <= i < |s| ==> NumeralChar(s[i])
  }

  function DigitValue(c: char): (d: nat)
    requires IsDigit(c)
    ensures d < 10
  {
    c as int - '0' as int
  }

  function DigitChar(d: nat): (c: char)
    requires d < 10
    ensures IsDigit(c) && DigitValue(c) == d
  {
    ('0' as int + d) as char
  }

  /** The value of a string of decimal digits, most significant first. */
  function DigitsValue(s: string): nat
    requires AllDigits(s)
  {
    if s == [] then 0 else DigitsValue(s[..|s| - 1]) * 10 + DigitValue(s[|s| - 1])
  }

  function Pow10(n: nat): (r: nat)
    ensures r >= 1
  {
    if n == 0 then 1 else 10 * Pow10(n - 1)
  }

  /** Python's `str(n)` for a natural number. */
  function ShowNat(n: nat): (s: string)
    ensures |s| > 0 && AllDigits(s)
  {
    if n < 10 then [DigitChar(n)] else ShowNat(n / 10) + [DigitChar(n % 10)]
  }

  /** Python's `str(n)` for an integer. */
  function ShowInt(n: int): (s: string)
    ensures NumeralText(s)
  {
    if n < 0 then "-" + ShowNat(-n) else ShowNat(n)
  }

  /** An unsigned run of digits, as `int()` reads it. */
  function ParseDigits(s: string): (r: Option<nat>)
    ensures r.Some? <==> |s| > 0 && AllDigits(s)
  {
    if |s| > 0 && AllDigits(s) then Some(DigitsValue(s)) else None
  }

  /** Python's `int(s)` on a token without surrounding whitespace; None where it raises. */
  function ParseInt(s: string): (r: Option<int>)
    ensures r.Some? ==> NumeralText(s)
  {
    if s == [] then None
    else if s[0] == '-' then
      (match ParseDigits(s[1..]) case Some(v) => Some(-(v as int)) case None => None)
    else if s[0] == '+' then
      (match ParseDigits(s[1..]) case Some(v) => Some(v as int) case None => None)
    else
      (match ParseDigits(s) case Some(v) => Some(v as int) case None => None)
  }

  /** Length of the run of digits at the front of `s`. */
  function DigitRun(s: string): (n: nat)
    ensures n <= |s| && AllDigits(s[..n])
    ensures n == |s| || !IsDigit(s[n])
  {
    if s == [] || !IsDigit(s[0]) then 0
    else
      var n := DigitRun(s[1..]);
      assert s[..n + 1] == [s[0]] + s[1..][..n];
      n + 1
  }

  /** An unsigned decimal: digits, optionally followed by '.' and digits, with at least one digit. */
  function ParseUnsigned(s: string): (r: Option<real>)
    ensures r.Some? ==> |s| > 0 && forall i :: 0 <= i < |s| ==> IsDigit(s[i]) || s[i] == '.'
    ensures r.Some? ==> r.value >= 0.0
  {
    var n := DigitRun(s);
    var whole := s[..n];
    if n == |s| then
      if n == 0 then None else Some(DigitsValue(whole) as real)
    else if s[n] != '.' then None
    else
      var frac := s[n + 1..];
      if !AllDigits(frac) || (n == 0 && frac == []) then None
      else
        assert s == whole + ['.'] + frac;
        Some(DigitsValue(whole) as real + DigitsValue(frac) as real / Pow10(|frac|) as real)
  }

  /** Python's `float(s)` on a plain decimal token without surrounding whitespace; None where it raises. */
  function ParseNum(s: string): (r: Option<real>)
    ensures r.Some? ==> NumeralText(s)
  {
    if s == [] then None
    else if s[0] == '-' then
      (match ParseUnsigned(s[1..]) case Some(v) => Some(-v) case None => None)
    else if s[0] == '+' then ParseUnsigned(s[1..])
    else ParseUnsigned(s)
  }

  lemma {:induction false} DigitsValueShowNat(n: nat)
    ensures DigitsValue(ShowNat(n)) == n
  {
    if n >= 10 {
      DigitsValueShowNat(n / 10);
      var s := ShowNat(n / 10) + [DigitChar(n % 10)];
      assert s[..|s| - 1] == ShowNat(n / 10);
    }
  }

  /** `int(str(n)) == n`: the key "Sensor n" names exactly one sensor number. */
  lemma ParseShowInt(n: int)
    ensures ParseInt(ShowInt(n)) == Some(n)
  {
    if n < 0 {
      DigitsValueShowNat(-n);
      assert ShowInt(n)[1..] == ShowNat(-n);
    } else {
      DigitsValueShowNat(n);
      assert IsDigit(ShowNat(n)[0]);
    }
  }

  lemma ShowIntInjective(m: int, n: int)
    requires ShowInt(m) == ShowInt(n)
    ensures m == n
  {
    ParseShowInt(m);
    ParseShowInt(n);
  }

  /** Every token `int()` accepts, `float()` accepts with the same value. */
  lemma {:induction false} IntLiteralIsNum(s: string)
    requires ParseInt(s).Some?
    ensures ParseNum(s) == Some(ParseInt(s).value as real)
  {
    var body := if s[0] == '-' || s[0] == '+' then s[1..] else s;
    assert |body| > 0 && AllDigits(body);
    assert DigitRun(body) == |body| by {
      DigitRunAll(body);
    }
    assert body[..|body|] == body;
  }

  lemma {:induction false} DigitRunAll(s: string)
    requires AllDigits(s)
    ensures DigitRun(s) == |s|
  {
    if s != [] {
      DigitRunAll(s[1..]);
    }
  }
}
