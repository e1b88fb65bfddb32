/**
 * Compound growth over exact reals: the three chart series
 * (`Array.from({length: years + 1}, (_, i) => amount * Math.pow(rate, i))`),
 * the scalar end value used by the headline numbers, the chart's x-axis
 * labels and `Math.max` over a series.
 */
module Growth {
  import opened Digits

  /** `Math.pow(rate, n)` for a whole exponent, without rounding. */
  function Pow(rate: real, n: nat): real {
    if n == 0 then 1.0 else rate * Pow(rate, n - 1)
  }

  /** The projected value after each of the years 0..years. */
  function Project(amount: real, years: nat, rate: real): (s: seq<real>)
    ensures |s| == years + 1
  {
    seq(years + 1, i requires 0 <= i < years + 1 => amount * Pow(rate, i))
  }

  /** `amount * Math.pow(rate, years)`: the headline end value, computed without the series. */
  function EndValue(amount: real, years: nat, rate: real): real {
    amount * Pow(rate, years)
  }

  /** `Array.from({length: years + 1}, (_, i) => i.toString())`. */
  function Labels(years: nat): (l: seq<string>)
    ensures |l| == years + 1
  {
    seq(years + 1, i requires 0 <= i < years + 1 => NatToDigits(i))
  }

  /** `Math.max(...s)` for a non-empty series. */
  function MaxOf(s: seq<real>): (m: real)
    requires |s| > 0
    ensures m in s
    ensures forall i :: 0 <= i < |s| ==> s[i] <= m
  {
    if |s| == 1 then s[0]
    else
      var rest := MaxOf(s[1..]);
      if s[0] >= rest then s[0] else rest
  }

  /** A product of two non-negative reals is non-negative. */
  lemma MulNonNegative(x: real, y: real)
    requires x >= 0.0 && y >= 0.0
    ensures x * y >= 0.0
  {
  }

  lemma {:induction false} PowAtLeastOne(rate: real, n: nat)
    requires rate >= 1.0
    ensures Pow(rate, n) >= 1.0
  {
    if n > 0 {
      PowAtLeastOne(rate, n - 1);
      var p := Pow(rate, n - 1);
      assert rate * p - p == (rate - 1.0) * p;
      MulNonNegative(rate - 1.0, p);
    }
  }

  /** For a rate of at least 1, powers never decrease with the exponent. */
  lemma {:induction false} PowMonotone(rate: real, i: nat, j: nat)
    requires rate >= 1.0 && i <= j
    ensures Pow(rate, i) <= Pow(rate, j)
  {
    if i < j {
      PowMonotone(rate, i, j - 1);
      PowAtLeastOne(rate, j - 1);
      var p := Pow(rate, j - 1);
      assert rate * p - p == (rate - 1.0) * p;
      MulNonNegative(rate - 1.0, p);
    }
  }

  /** A larger rate never gives a smaller power. */
  lemma {:induction false} PowBaseMonotone(lo: real, hi: real, n: nat)
    requires 1.0 <= lo <= hi
    ensures Pow(lo, n) <= Pow(hi, n)
  {
    if n > 0 {
      PowBaseMonotone(lo, hi, n - 1);
      PowAtLeastOne(lo, n - 1);
      var p, q := Pow(lo, n - 1), Pow(hi, n - 1);
      assert hi * q - lo * p == hi * (q - p) + (hi - lo) * p;
      MulNonNegative(hi, q - p);
      MulNonNegative(hi - lo, p);
    }
  }

  /**
   * Each series starts at the amount, its element i is amount * rate^i, and
   * its last element is the headline end value.
   */
  lemma ProjectShape(amount: real, years: nat, rate: real)
    ensures Project(amount, years, rate)[0] == amount
    ensures forall i :: 0 <= i <= years ==> Project(amount, years, rate)[i] == amount * Pow(rate, i)
    ensures Project(amount, years, rate)[years] == EndValue(amount, years, rate)
  {
  }

  /** With a non-negative amount and a rate of at least 1 the series never decreases. */
  lemma ProjectNonDecreasing(amount: real, years: nat, rate: real, i: nat, j: nat)
    requires amount >= 0.0 && rate >= 1.0 && i <= j <= years
    ensures Project(amount, years, rate)[i] <= Project(amount, years, rate)[j]
  {
    PowMonotone(rate, i, j);
    var p, q := Pow(rate, i), Pow(rate, j);
    assert amount * q - amount * p == amount * (q - p);
    MulNonNegative(amount, q - p);
  }

  /** So its maximum is its last element, the end value. */
  lemma ProjectMaxIsLast(amount: real, years: nat, rate: real)
    requires amount >= 0.0 && rate >= 1.0
    ensures MaxOf(Project(amount, years, rate)) == EndValue(amount, years, rate)
  {
    var s := Project(amount, years, rate);
    var m := MaxOf(s);
    assert |s| == years + 1;
    var k :| 0 <= k < |s| && s[k] == m;
    ProjectNonDecreasing(amount, years, rate, k, years);
    ProjectShape(amount, years, rate);
    assert s[years] <= m <= s[years];
    assert s[years] == EndValue(amount, years, rate);
  }

  /** A zero amount projects to all zeros; it still yields a full series. */
  lemma ProjectZero(years: nat, rate: real)
    ensures forall i :: 0 <= i <= years ==> Project(0.0, years, rate)[i] == 0.0
  {
  }

  /** Label i is the decimal text of i. */
  lemma LabelsSpec(years: nat)
    ensures forall i :: 0 <= i <= years ==> IsCanonical(Labels(years)[i]) && DigitsToNat(Labels(years)[i]) == i
  {
    forall i | 0 <= i <= years
      ensures DigitsToNat(Labels(years)[i]) == i
    {
      DigitsRoundTrip(i);
    }
  }
}
