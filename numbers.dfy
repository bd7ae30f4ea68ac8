/**
 * Decimal rendering of integers (the `%d` verb of Go's `fmt.Sprintf`, as used
 * by the command templates) and decimal parsing of numeric tokens (Go's
 * `strconv.ParseFloat`, over exact rationals instead of float64).
 */
module Numbers {
  import opened Wrappers
  import opened Strings

  predicate IsDigit(c: char) {
    '0' <= c <= '9'
  }

  predicate AllDigits(s: string) {
    forall i :: 0 <= i < |s| ==> IsDigit(s[i])
  }

  function DigitChar(d: nat): char
    requires d < 10
  {
    ('0' as int + d) as char
  }

  /** Value of a run of decimal digits, most significant first. */
  function DigitsValue(ds: string): nat
    requires AllDigits(ds)
  {
    if ds == [] then 0
    else 10 * DigitsValue(ds[..|ds| - 1]) + (ds[|ds| - 1] as int - '0' as int)
  }

  function Pow10(k: nat): (r: real)
    ensures r > 0.0
  {
    if k == 0 then 1.0 else 10.0 * Pow10(k - 1)
  }

  /** Decimal digits of a natural number, without leading zeros. */
  function FormatNat(n: nat): (s: string)
    ensures |s| > 0 && AllDigits(s)
  {
    if n < 10 then [DigitChar(n)] else FormatNat(n / 10) + [DigitChar(n % 10)]
  }

  /** `fmt.Sprintf("%d", n)`. */
  function FormatInt(n: int): string {
    if n < 0 then "-" + FormatNat(-n) else FormatNat(n)
  }

  /**
   * `fmt.Sprintf(t, args...)` for templates whose only verb is `%d`: each `%d`
   * takes the next argument; a `%d` with no argument left renders as Go does.
   */
  function FormatTemplate(t: string, args: seq<int>): string
    decreases |t|
  {
    if t == [] then ""
    else if |t| >= 2 && t[0] == '%' && t[1] == 'd' then
      if |args| > 0 then FormatInt(args[0]) + FormatTemplate(t[2..], args[1..])
      else "%!d(MISSING)" + FormatTemplate(t[2..], args)
    else [t[0]] + FormatTemplate(t[1..], args)
  }

  /** Index of the first occurrence of `c` in `s`, or `|s|`. */
  function IndexOf(s: string, c: char): (k: nat)
    ensures k <= |s|
    ensures forall i :: 0 <= i < k ==> s[i] != c
    ensures k < |s| ==> s[k] == c
  {
    if s == [] then 0 else if s[0] == c then 0 else 1 + IndexOf(s[1..], c)
  }

  /** Index of the first exponent marker `e` or `E` in `s`, or `|s|`. */
  function ExponentIndex(s: string): (k: nat)
    ensures k <= |s|
    ensures forall i :: 0 <= i < k ==> s[i] != 'e' && s[i] != 'E'
    ensures k < |s| ==> s[k] == 'e' || s[k] == 'E'
  {
    if s == [] then 0 else if s[0] == 'e' || s[0] == 'E' then 0 else 1 + ExponentIndex(s[1..])
  }

  /** digits [ "." digits ] or "." digits, at least one digit in all. */
  function ParseMantissa(m: string): Option<real> {
    var d := IndexOf(m, '.');
    var whole := m[..d];
    var frac := if d < |m| then m[d + 1..] else "";
    if AllDigits(whole) && AllDigits(frac) && |whole| + |frac| > 0 then
      Some(DigitsValue(whole) as real + DigitsValue(frac) as real / Pow10(|frac|))
    else None
  }

  /** [ "+" | "-" ] digits. */
  function ParseExponent(e: string): Option<int> {
    if |e| > 1 && (e[0] == '+' || e[0] == '-') && AllDigits(e[1..]) then
      Some(if e[0] == '-' then -(DigitsValue(e[1..]) as int) else DigitsValue(e[1..]))
    else if |e| > 0 && AllDigits(e) then Some(DigitsValue(e))
    else None
  }

  function ParseUnsigned(t: string): Option<real> {
    var k := ExponentIndex(t);
    var m := ParseMantissa(t[..k]);
    if m.None? then None
    else if k == |t| then m
    else
      match ParseExponent(t[k + 1..])
      case None => None
      case Some(e) => Some(if e >= 0 then m.value * Pow10(e) else m.value / Pow10(-e))
  }

  /**
   * A numeric token: optional sign, mantissa, optional exponent. A token that
   * is empty or holds anything else (white space included) is rejected.
   */
  function ParseNum(t: string): (r: Option<real>)
    ensures r.Some? ==> |t| > 0
  {
    if |t| > 0 && (t[0] == '+' || t[0] == '-') then
      match ParseUnsigned(t[1..])
      case None => None
      case Some(v) => Some(if t[0] == '-' then -v else v)
    else ParseUnsigned(t)
  }

  lemma {:induction false} DigitsValueSnoc(ds: string, c: char)
    requires AllDigits(ds) && IsDigit(c)
    ensures AllDigits(ds + [c])
    ensures DigitsValue(ds + [c]) == 10 * DigitsValue(ds) + (c as int - '0' as int)
  {
    assert (ds + [c])[..|ds|] == ds;
  }

  lemma {:induction false} FormatNatValue(n: nat)
    ensures DigitsValue(FormatNat(n)) == n
  {
    if n >= 10 {
      FormatNatValue(n / 10);
      DigitsValueSnoc(FormatNat(n / 10), DigitChar(n % 10));
    }
  }

  lemma {:induction false} MantissaOfDigits(ds: string)
    requires |ds| > 0 && AllDigits(ds)
    ensures ParseMantissa(ds) == Some(DigitsValue(ds) as real)
  {
    var d := IndexOf(ds, '.');
    assert d == |ds|;
    assert ds[..d] == ds;
  }

  lemma {:induction false} ParseDigits(ds: string)
    requires |ds| > 0 && AllDigits(ds)
    ensures ParseUnsigned(ds) == Some(DigitsValue(ds) as real)
  {
    var k := ExponentIndex(ds);
    assert k == |ds|;
    assert ds[..k] == ds;
    MantissaOfDigits(ds);
  }

  /** Parsing the decimal rendering of an integer gives that integer back. */
  lemma {:induction false} ParseFormatInt(n: int)
    ensures ParseNum(FormatInt(n)) == Some(n as real)
  {
    if n < 0 {
      var ds := FormatNat(-n);
      var t := "-" + ds;
      assert FormatInt(n) == t;
      assert t[1..] == ds;
      FormatNatValue(-n);
      ParseDigits(ds);
      assert ParseUnsigned(t[1..]) == Some((-n) as real);
    } else {
      var ds := FormatNat(n);
      assert FormatInt(n) == ds;
      assert IsDigit(ds[0]);
      FormatNatValue(n);
      ParseDigits(ds);
    }
  }
}
