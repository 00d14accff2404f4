/** Decimal numerals as the drivers write and read them: Python's `str()` of an
    integer, `int()` of a reply, and `float()` of a reply, the last over exact reals.
 */
module Decimal {
  import opened Wrappers
  import opened Text

  predicate IsDigit(c: char) {
    '0' <= c <= '9'
  }

  predicate AllDigits(s: string) {
    forall i :: 0 <= i < |s| ==> IsDigit(s[i])
  }

  function DigitChar(d: nat): (c: char)
    requires d < 10
    ensures IsDigit(c)
  {
    (48 + d) as char
  }

  function DigitValue(c: char): (d: nat)
    requires IsDigit(c)
    ensures d < 10
  {
    c as int - 48
  }

  /** The value of a string of decimal digits, most significant first; "" reads as 0. */
  function DigitsValue(s: string): nat
    requires AllDigits(s)
    decreases |s|
  {
    if |s| == 0 then 0 else DigitsValue(s[..|s| - 1]) * 10 + DigitValue(s[|s| - 1])
  }

  function Pow10(k: nat): (p: nat)
    ensures p >= 1
  {
    if k == 0 then 1 else 10 * Pow10(k - 1)
  }

  /** `str(n)` for n >= 0: the shortest digit string that reads back as n. */
  function NatToString(n: nat): (s: string)
    ensures |s| > 0 && AllDigits(s)
    ensures DigitsValue(s) == n
    ensures |s| == 1 || s[0] != '0'
    decreases n
  {
    if n < 10 then [DigitChar(n)]
    else
      var s := NatToString(n / 10) + [DigitChar(n % 10)];
      assert s[..|s| - 1] == NatToString(n / 10);
      s
  }

  /** Splits one leading '+' or '-' off a numeral, as `int()` and `float()` allow. */
  function SplitSign(s: string): (r: (bool, string))
    ensures r.1 == s || (|s| > 0 && r.1 == s[1..] && (s[0] == '-' || s[0] == '+'))
    ensures r.0 ==> |s| > 0 && s[0] == '-'
  {
    if |s| > 0 && s[0] == '-' then (true, s[1..])
    else if |s| > 0 && s[0] == '+' then (false, s[1..])
    else (false, s)
  }

  /** `int(s)` on an optionally signed string of decimal digits. */
  function ParseInt(s: string): (r: Option<int>)
    ensures r.Some? <==> |SplitSign(s).1| > 0 && AllDigits(SplitSign(s).1)
  {
    var (negative, digits) := SplitSign(s);
    if |digits| > 0 && AllDigits(digits) then
      var n: int := DigitsValue(digits);
      Some(if negative then -n else n)
    else None
  }

  /** The scale factor 10^k of a decimal exponent, for k of either sign. */
  function Scale(k: int): (f: real)
    ensures f > 0.0
  {
    if k >= 0 then Pow10(k) as real else 1.0 / (Pow10(-k) as real)
  }

  /** Index of the first exponent mark 'e' or 'E' in `s`, if any. */
  function ExponentMark(s: string): (r: Option<nat>)
    ensures r.None? <==> 'e' !in s && 'E' !in s
    ensures r.Some? ==> r.value < |s| && (s[r.value] == 'e' || s[r.value] == 'E')
    decreases |s|
  {
    if |s| == 0 then None
    else if s[0] == 'e' || s[0] == 'E' then Some(0)
    else
      match ExponentMark(s[1..])
      case None => None
      case Some(i) => Some(i + 1)
  }

  /** The unsigned mantissa `digits [. [digits]]` or `. digits`. */
  function ParseMantissa(m: string): Option<real> {
    match FindChar(m, '.')
    case None =>
      if |m| > 0 && AllDigits(m) then Some(DigitsValue(m) as real) else None
    case Some(i) =>
      var whole := m[..i];
      var fraction := m[i + 1..];
      if |whole| + |fraction| > 0 && AllDigits(whole) && AllDigits(fraction) then
        Some(DigitsValue(whole) as real + (DigitsValue(fraction) as real) / (Pow10(|fraction|) as real))
      else None
  }

  /** `float(s)` on the decimal forms an instrument replies with:
      `[sign] mantissa [(e|E) [sign] digits]`, computed exactly. */
  function ParseReal(s: string): Option<real> {
    var (negative, body) := SplitSign(s);
    var mantissa := match ExponentMark(body) case None => body case Some(i) => body[..i];
    var exponent: Option<int> :=
      match ExponentMark(body) case None => Some(0) case Some(i) => ParseInt(body[i + 1..]);
    match (ParseMantissa(mantissa), exponent)
    case (Some(m), Some(k)) => Some(if negative then -(m * Scale(k)) else m * Scale(k))
    case _ => None
  }

  /** `str(i)`: it reads back through both `int()` and `float()` as i, and holds
      nothing but an optional minus sign and digits. */
  function IntToString(i: int): (s: string)
    ensures ParseInt(s) == Some(i)
    ensures ParseReal(s) == Some(i as real)
    ensures forall k :: 0 <= k < |s| ==> IsDigit(s[k]) || (k == 0 && s[k] == '-')
  {
    var digits := NatToString(if i < 0 then -i else i);
    var s := if i < 0 then "-" + digits else digits;
    assert SplitSign(s).1 == digits;
    assert '.' !in digits && 'e' !in digits && 'E' !in digits by {
      forall k | 0 <= k < |digits| ensures IsDigit(digits[k]) { }
    }
    s
  }
}
