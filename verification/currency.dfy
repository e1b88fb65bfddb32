/**
 * The en-US whole-dollar texts the widget writes, and the parse-back that
 * reads a headline slot's text as the start of its next tween.
 */
module Currency {
  import opened Wrappers
  import opened Digits
  import opened Numbers

  /** en-US thousands grouping of a digit string: a comma before every group of three, counted from the right. */
  function Group(d: string): (g: string)
    ensures |d| > 0 ==> |g| == |d| + (|d| - 1) / 3
  {
    if |d| <= 3 then d else Group(d[..|d| - 3]) + "," + d[|d| - 3..]
  }

  /**
   * `Intl.NumberFormat("en-US", {style: "currency", currency: "USD",
   * minimumFractionDigits: 0, maximumFractionDigits: 0}).format(n)`
   * for a whole, non-negative amount.
   */
  function FormatCurrency(n: nat): (s: string)
    ensures |s| >= 2 && s[0] == '$'
  {
    "$" + Group(NatToDigits(n))
  }

  /**
   * `formatNumber(x)`: `"$" + Math.round(x).toLocaleString()` in the en-US
   * locale. A negative rounded value is written with a minus sign after the
   * dollar sign; `Math.round` yields -0 for x in [-0.5, 0), which
   * `toLocaleString` also writes with a minus sign.
   */
  function FormatNumber(x: real): (s: string)
    ensures |s| >= 2 && s[0] == '$'
  {
    var r := Round(x);
    "$" + (if x < 0.0 then "-" else "") + Group(NatToDigits(if r < 0 then -r else r))
  }

  predicate IsNumeric(c: char) {
    IsDigit(c) || c == '.' || c == '-'
  }

  /** `s.replace(/[^0-9.-]+/g, "")`. */
  function KeepNumeric(s: string): (r: string)
    ensures |r| <= |s|
    ensures forall i :: 0 <= i < |r| ==> IsNumeric(r[i])
  {
    if s == [] then [] else (if IsNumeric(s[0]) then [s[0]] else []) + KeepNumeric(s[1..])
  }

  /** `parseFloat(text.replace(/[^0-9.-]+/g, "")) || 0`: the start value of a tween. */
  function ParseBack(text: string): real {
    ParseFloat(KeepNumeric(text)).GetOr(0.0)
  }

  lemma {:induction false} KeepNumericConcat(a: string, b: string)
    ensures KeepNumeric(a + b) == KeepNumeric(a) + KeepNumeric(b)
  {
    if a == [] {
      assert a + b == b;
    } else {
      var ab := a + b;
      assert ab[0] == a[0] && ab[1..] == a[1..] + b;
      KeepNumericConcat(a[1..], b);
      var h := if IsNumeric(a[0]) then [a[0]] else [];
      calc {
        KeepNumeric(ab);
        h + KeepNumeric(a[1..] + b);
        (h + KeepNumeric(a[1..])) + KeepNumeric(b);
      }
    }
  }

  lemma {:induction false} KeepNumericDigits(d: string)
    requires IsDigits(d)
    ensures KeepNumeric(d) == d
  {
    if d != [] {
      KeepNumericDigits(d[1..]);
      assert d == [d[0]] + d[1..];
    }
  }

  /** Stripping the comma-joined text of two parts strips each part. */
  lemma StripJoin(a: string, b: string)
    ensures StripNonDigits(a + "," + b) == StripNonDigits(a) + StripNonDigits(b)
  {
    var x := a + ",";
    StripConcat(x, b);
    StripConcat(a, ",");
    assert StripNonDigits(",") == [] by {
      assert ","[1..] == [];
    }
    assert StripNonDigits(x) == StripNonDigits(a);
  }

  /** Keeping the numeric characters of the comma-joined text of two parts keeps those of each part. */
  lemma KeepJoin(a: string, b: string)
    ensures KeepNumeric(a + "," + b) == KeepNumeric(a) + KeepNumeric(b)
  {
    var x := a + ",";
    KeepNumericConcat(x, b);
    KeepNumericConcat(a, ",");
    assert KeepNumeric(",") == [] by {
      assert ","[1..] == [];
    }
    assert KeepNumeric(x) == KeepNumeric(a);
  }

  /** Grouping only inserts commas: stripping them again gives the digits back. */
  lemma {:induction false} StripGroup(d: string)
    requires IsDigits(d)
    ensures StripNonDigits(Group(d)) == d
  {
    if |d| > 3 {
      var hi, lo := d[..|d| - 3], d[|d| - 3..];
      StripGroup(hi);
      StripJoin(Group(hi), lo);
      assert IsDigits(lo);
      assert d == hi + lo;
    }
  }

  /** The commas are the only characters of grouped digits the parse-back drops. */
  lemma {:induction false} KeepGroup(d: string)
    requires IsDigits(d)
    ensures KeepNumeric(Group(d)) == d
  {
    if |d| > 3 {
      var hi, lo := d[..|d| - 3], d[|d| - 3..];
      KeepGroup(hi);
      KeepJoin(Group(hi), lo);
      KeepNumericDigits(lo);
      assert d == hi + lo;
    } else {
      KeepNumericDigits(d);
    }
  }

  /**
   * Every other character of a grouped number, counting from the right, is
   * the next digit of `d` from the right: position i holds digit i - i/4.
   */
  lemma GroupDigits(d: string)
    requires IsDigits(d)
    ensures forall i :: 0 <= i < |Group(d)| && i % 4 != 3 ==>
      0 <= |d| - 1 - (i - i / 4) && Group(d)[|Group(d)| - 1 - i] == d[|d| - 1 - (i - i / 4)]
  {
    forall i | 0 <= i < |Group(d)| && i % 4 != 3
      ensures 0 <= |d| - 1 - (i - i / 4) && Group(d)[|Group(d)| - 1 - i] == d[|d| - 1 - (i - i / 4)]
    {
      GroupDigitAt(d, i);
    }
  }

  /** `GroupDigits` at one position, by induction on the number of groups. */
  lemma {:induction false} GroupDigitAt(d: string, i: nat)
    requires IsDigits(d) && i < |Group(d)| && i % 4 != 3
    ensures 0 <= |d| - 1 - (i - i / 4) && Group(d)[|Group(d)| - 1 - i] == d[|d| - 1 - (i - i / 4)]
  {
    var g := Group(d);
    if |d| > 3 {
      var hi, lo := d[..|d| - 3], d[|d| - 3..];
      var gh := Group(hi);
      assert g == gh + [','] + lo;
      assert |g| == |gh| + 4;
      if i >= 4 {
        var k := i - 4;
        assert k % 4 == i % 4 && k / 4 == i / 4 - 1;
        GroupDigitAt(hi, k);
        assert g[|g| - 1 - i] == gh[|gh| - 1 - k];
        var j := |hi| - 1 - (k - k / 4);
        assert j == |d| - 1 - (i - i / 4);
        assert hi[j] == d[j];
      } else {
        assert i < 3 && i / 4 == 0;
        assert g[|g| - 1 - i] == lo[2 - i];
      }
    }
  }

  /** Every fourth character from the right of a grouped number is a comma, and only those. */
  lemma {:induction false} GroupShape(d: string)
    requires IsDigits(d)
    ensures forall i :: 0 <= i < |Group(d)| ==>
      (Group(d)[|Group(d)| - 1 - i] == ',' <==> i % 4 == 3)
  {
    if |d| > 3 {
      var hi, lo := d[..|d| - 3], d[|d| - 3..];
      GroupShape(hi);
      var g := Group(d);
      assert g == Group(hi) + "," + lo;
      forall i | 0 <= i < |g|
        ensures g[|g| - 1 - i] == ',' <==> i % 4 == 3
      {
        assert |g| == |Group(hi)| + 4;
        if i >= 4 {
          assert g[|g| - 1 - i] == Group(hi)[|Group(hi)| - 1 - (i - 4)];
          assert i % 4 == (i - 4) % 4;
        } else if i == 3 {
          assert g[|g| - 4] == ',';
        } else {
          assert g[|g| - 1 - i] == lo[2 - i];
          assert IsDigit(lo[2 - i]);
        }
      }
    }
  }

  /**
   * Format-then-strip round trip: the digits of a formatted amount are the
   * decimal text of the amount, and reading them back gives the amount.
   */
  lemma StripFormatCurrency(n: nat)
    ensures StripNonDigits(FormatCurrency(n)) == NatToDigits(n)
    ensures DigitsToNat(StripNonDigits(FormatCurrency(n))) == n
  {
    StripGroup(NatToDigits(n));
    StripConcat("$", Group(NatToDigits(n)));
    DigitsRoundTrip(n);
  }

  /** What `formatNumber` writes keeps, after dropping `$` and commas, its sign and its digits. */
  lemma KeepNumericFormatNumber(x: real, sign: string, d: string)
    requires sign == (if x < 0.0 then "-" else "")
    requires d == NatToDigits(if Round(x) < 0 then -Round(x) else Round(x))
    ensures KeepNumeric(FormatNumber(x)) == sign + d
  {
    KeepGroup(d);
    assert FormatNumber(x) == ("$" + sign) + Group(d);
    KeepNumericConcat("$" + sign, Group(d));
    KeepNumericConcat("$", sign);
    assert KeepNumeric("$") == [];
    assert KeepNumeric(sign) == sign;
  }

  /** Reading back what `formatNumber` wrote gives `Math.round` of the written value. */
  lemma ParseBackFormatNumber(x: real)
    ensures ParseBack(FormatNumber(x)) == Round(x) as real
  {
    var r := Round(x);
    var m: nat := if r < 0 then -r else r;
    var d := NatToDigits(m);
    var sign := if x < 0.0 then "-" else "";
    KeepNumericFormatNumber(x, sign, d);
    assert ParseBack(FormatNumber(x)) == ParseFloat(sign + d).GetOr(0.0);
    ParseSignedDigits(x < 0.0, d);
    DigitsRoundTrip(m);
    if x < 0.0 {
      assert r <= 0 && r as real == -(m as real);
    } else {
      assert r >= 0 && r as real == m as real;
    }
  }
}
