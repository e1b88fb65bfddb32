/**
 * The JavaScript number conversions the widget relies on, over exact
 * integers and reals: `Math.round`, and `parseFloat` / `parseInt` restricted
 * to the characters that can reach them here (digits, `.` and `-`).
 * NaN is `None`.
 */
module Numbers {
  import opened Wrappers
  import opened Digits

  /** The value of the digits after a decimal point: ".d0d1d2..." is (d0 + ".d1d2...") / 10. */
  function Fraction(fp: string): (f: real)
    requires IsDigits(fp)
    ensures 0.0 <= f < 1.0
  {
    if fp == [] then 0.0 else (DigitVal(fp[0]) as real + Fraction(fp[1..])) / 10.0
  }

  /** `Math.round(x)`: the nearest integer, halves rounded towards +infinity. */
  function Round(x: real): (r: int)
    ensures x - 0.5 < r as real <= x + 0.5
  {
    (x + 0.5).Floor
  }

  /**
   * `parseFloat(s)` on a string of digits, `.` and `-`: an optional minus
   * sign, then the longest prefix of the form `digits[.digits]` or
   * `.digits`; NaN when that prefix holds no digit at all.
   */
  function ParseFloat(s: string): Option<real> {
    if |s| > 0 && s[0] == '-' then
      match ParseUnsigned(s[1..])
      case Some(m) => Some(-m)
      case None => None
    else ParseUnsigned(s)
  }

  /** The unsigned part of `parseFloat`. */
  function ParseUnsigned(s: string): (r: Option<real>)
    ensures r.Some? ==> r.value >= 0.0
  {
    var ip := LeadingDigits(s);
    var fp := FractionDigits(s[|ip|..]);
    if ip == [] && fp == [] then None else Some(DigitsToNat(ip) as real + Fraction(fp))
  }

  /** The digits after a leading decimal point, if there is one. */
  function FractionDigits(rest: string): (fp: string)
    ensures IsDigits(fp)
  {
    if |rest| > 0 && rest[0] == '.' then LeadingDigits(rest[1..]) else []
  }

  /** `parseInt(s, 10)` on a string without leading white space or `+`. */
  function ParseInt(s: string): Option<int> {
    var neg := |s| > 0 && s[0] == '-';
    var body := if neg then s[1..] else s;
    var ip := LeadingDigits(body);
    if ip == [] then None
    else Some(if neg then -(DigitsToNat(ip) as int) else DigitsToNat(ip))
  }

  lemma LeadingDigitsOfDigits(s: string)
    requires IsDigits(s)
    ensures LeadingDigits(s) == s
  {
  }

  /** The unsigned parse of a non-empty digit string is its value. */
  lemma ParseUnsignedDigits(d: string)
    requires IsDigits(d) && d != []
    ensures ParseUnsigned(d) == Some(DigitsToNat(d) as real)
  {
    LeadingDigitsOfDigits(d);
    assert d[|d|..] == [];
  }

  /**
   * On a plain digit string both parsers give its value, and on the empty
   * string both give NaN; so `parseFloat(s) || 0` and `parseInt(s) || 0`
   * agree on every value the widget stores.
   */
  lemma ParseDigits(s: string)
    requires IsDigits(s)
    ensures s == [] ==> ParseFloat(s) == None && ParseInt(s) == None
    ensures s != [] ==> ParseFloat(s) == Some(DigitsToNat(s) as real)
    ensures s != [] ==> ParseInt(s) == Some(DigitsToNat(s))
  {
    LeadingDigitsOfDigits(s);
    if s != [] {
      assert s[0] != '-';
      ParseUnsignedDigits(s);
    }
  }

  /** Reading back `sign + digits` gives the signed value of the digits. */
  lemma ParseSignedDigits(neg: bool, d: string)
    requires IsDigits(d) && d != []
    ensures ParseFloat((if neg then "-" else "") + d)
         == Some(if neg then -(DigitsToNat(d) as real) else DigitsToNat(d) as real)
  {
    ParseUnsignedDigits(d);
    if neg {
      var s := "-" + d;
      assert s[0] == '-' && s[1..] == d;
    } else {
      assert "" + d == d;
      assert d[0] != '-';
    }
  }
}
