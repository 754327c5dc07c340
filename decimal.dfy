/** Decimal text for integers: what a template literal `${n}` writes and what
    `parseInt` reads back, on the decimal integer strings the worker uses. */
module Decimal {
  import opened Values

  predicate IsDigit(c: char) {
    '0' <= c <= '9'
  }

  predicate AllDigits(s: string) {
    forall i :: 0 <= i < |s| ==> IsDigit(s[i])
  }

  function DigitChar(d: nat): (c: char)
    requires d < 10
    ensures IsDigit(c) && c as int - '0' as int == d
  {
    ('0' as int + d) as char
  }

  /** The value of a string of decimal digits, most significant first. */
  function DigitsValue(s: string): (v: nat)
    requires AllDigits(s)
    decreases |s|
  {
    if s == [] then 0
    else DigitsValue(s[..|s| - 1]) * 10 + (s[|s| - 1] as int - '0' as int)
  }

  /** The shortest decimal digits of a natural number: no leading zero
      except for 0 itself. */
  function ShowNat(n: nat): (s: string)
    ensures |s| > 0 && AllDigits(s)
    ensures s[0] == '0' ==> n == 0 && s == "0"
  {
    if n < 10 then [DigitChar(n)] else ShowNat(n / 10) + [DigitChar(n % 10)]
  }

  /** `${n}` for an integer: its digits, after a minus sign when negative. */
  function ShowInt(n: int): (s: string)
    ensures |s| > 0
    ensures s[0] == '-' <==> n < 0
    ensures n >= 0 ==> AllDigits(s) && (s[0] == '0' ==> n == 0 && s == "0")
    ensures n < 0 ==> |s| > 1 && AllDigits(s[1..]) && s[1] != '0'
  {
    if n < 0 then "-" + ShowNat(-n) else ShowNat(n)
  }

  /** Non-empty decimal digits. */
  predicate IsDecimal(s: string) {
    s != "" && AllDigits(s)
  }

  /** A `+` or `-` followed by non-empty decimal digits. */
  predicate IsSignedDecimal(s: string) {
    |s| > 1 && (s[0] == '-' || s[0] == '+') && AllDigits(s[1..])
  }

  /** `parseInt(s)` on an optional sign followed by decimal digits; any other
      string is taken as NaN (`None`). */
  function ParseInt(s: string): (r: Option<int>)
    ensures r.Some? <==> IsDecimal(s) || IsSignedDecimal(s)
    ensures IsDecimal(s) ==> r == Some(DigitsValue(s))
    ensures IsSignedDecimal(s) ==>
              r == Some(if s[0] == '-' then -(DigitsValue(s[1..]) as int) else DigitsValue(s[1..]))
  {
    if IsSignedDecimal(s) then
      var magnitude: int := DigitsValue(s[1..]);
      Some(if s[0] == '-' then -magnitude else magnitude)
    else if IsDecimal(s) then Some(DigitsValue(s))
    else None
  }

  lemma {:induction false} ShowNatValue(n: nat)
    ensures DigitsValue(ShowNat(n)) == n
  {
    if n >= 10 {
      var s := ShowNat(n);
      assert s[..|s| - 1] == ShowNat(n / 10);
      ShowNatValue(n / 10);
    }
  }

  /** Writing an integer in decimal and parsing it back gives the integer. */
  lemma ParseShowInt(n: int)
    ensures ParseInt(ShowInt(n)) == Some(n)
  {
    var s := ShowInt(n);
    if n < 0 {
      assert s[1..] == ShowNat(-n);
      ShowNatValue(-n);
    } else {
      ShowNatValue(n);
    }
  }
}
