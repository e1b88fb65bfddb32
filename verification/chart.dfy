/**
 * The data part of the Chart.js configuration that `createChart` builds:
 * labels, the three datasets with their fill tags, and the y-axis range.
 * Colours, tension, dashes and the hidden axes are not modelled.
 */
module Chart {
  import opened Wrappers
  import opened Digits
  import opened Numbers
  import opened Growth
  import opened Variants

  /** One dataset; a `None` point is NaN. */
  datatype Dataset = Dataset(data: seq<Option<real>>, fill: string)

  datatype ChartDescriptor = ChartDescriptor(
    labels: seq<string>,
    datasets: seq<Dataset>,
    yMin: Option<real>,
    yMax: Option<real>
  )

  /** The fill tags in dataset order: each band fills down to the next, the last to the origin. */
  const Fills: seq<string> := ["+1", "+1", "origin"]

  function Defined(s: seq<real>): (r: seq<Option<real>>)
    ensures |r| == |s| && forall i :: 0 <= i < |s| ==> r[i] == Some(s[i])
  {
    seq(|s|, i requires 0 <= i < |s| => Some(s[i]))
  }

  /**
   * The amount `createChart` reads from the stored value: `parseFloat(v) || 0`
   * in grove-calculator-v4.js, plain `parseFloat(v)` (NaN when empty) in
   * grove-calc.js.
   */
  function ChartAmount(v: Variant, stored: string): Option<real> {
    if v.chartAmountDefaultsToZero then Some(ParseFloat(stored).GetOr(0.0)) else ParseFloat(stored)
  }

  /** The chart configuration for an amount (NaN when `None`) and a horizon. */
  function BuildChart(amount: Option<real>, years: nat, v: Variant): ChartDescriptor {
    match amount
    case Some(a) =>
      var dataA := Project(a, years, v.rateA);
      var dataB := Project(a, years, v.rateB);
      var dataC := Project(a, years, v.rateC);
      ChartDescriptor(
        Labels(years),
        [Dataset(Defined(dataA), Fills[0]), Dataset(Defined(dataB), Fills[1]), Dataset(Defined(dataC), Fills[2])],
        Some(a),
        Some(1.1 * MaxOf(dataA)))
    case None =>
      var nan := seq(years + 1, i => None);
      ChartDescriptor(
        Labels(years),
        [Dataset(nan, Fills[0]), Dataset(nan, Fills[1]), Dataset(nan, Fills[2])],
        None,
        None)
  }

  /**
   * Whatever the amount, the chart has one label per year 0..years, three
   * datasets in the fixed fill order, and every dataset as long as the labels.
   */
  lemma ChartShape(amount: Option<real>, years: nat, v: Variant)
    ensures var c := BuildChart(amount, years, v);
      && |c.labels| == years + 1
      && |c.datasets| == 3
      && (forall k :: 0 <= k < 3 ==> |c.datasets[k].data| == |c.labels| && c.datasets[k].fill == Fills[k])
  {
  }

  /** Point i of the dataset is amount * rate^i, for each year 0..years. */
  predicate Compounds(d: Dataset, amount: real, rate: real, years: nat) {
    |d.data| == years + 1 && forall i :: 0 <= i <= years ==> d.data[i] == Some(amount * Pow(rate, i))
  }

  lemma DefinedCompounds(amount: real, years: nat, rate: real, fill: string)
    ensures Compounds(Dataset(Defined(Project(amount, years, rate)), fill), amount, rate, years)
  {
    ProjectShape(amount, years, rate);
  }

  /**
   * For a defined amount, each dataset compounds the amount at its own rate
   * (so its first point is the amount) and the y-axis starts at the amount.
   */
  lemma ChartSeries(a: real, years: nat, v: Variant)
    ensures BuildChart(Some(a), years, v).yMin == Some(a)
    ensures Compounds(BuildChart(Some(a), years, v).datasets[0], a, v.rateA, years)
    ensures Compounds(BuildChart(Some(a), years, v).datasets[1], a, v.rateB, years)
    ensures Compounds(BuildChart(Some(a), years, v).datasets[2], a, v.rateC, years)
    ensures forall k :: 0 <= k < 3 ==> BuildChart(Some(a), years, v).datasets[k].data[0] == Some(a)
  {
    DefinedCompounds(a, years, v.rateA, Fills[0]);
    DefinedCompounds(a, years, v.rateB, Fills[1]);
    DefinedCompounds(a, years, v.rateC, Fills[2]);
  }

  /**
   * The y-axis top is 1.1 times the best case's maximum, which is its last
   * point; it lies above the bottom whenever the amount is positive.
   */
  lemma ChartRange(a: real, years: nat, v: Variant)
    requires a >= 0.0 && v.rateA >= 1.0
    ensures BuildChart(Some(a), years, v).yMax == Some(1.1 * EndValue(a, years, v.rateA))
    ensures a > 0.0 ==> BuildChart(Some(a), years, v).yMax.value > BuildChart(Some(a), years, v).yMin.value
    ensures a == 0.0 ==> BuildChart(Some(a), years, v).yMax == Some(0.0)
  {
    var c := BuildChart(Some(a), years, v);
    assert c.yMin == Some(a);
    assert c.yMax == Some(1.1 * MaxOf(Project(a, years, v.rateA)));
    ProjectMaxIsLast(a, years, v.rateA);
    PowAtLeastOne(v.rateA, years);
    ScaledTopAboveAmount(a, Pow(v.rateA, years));
  }

  /** 1.1 * a * p, for p >= 1, is above a when a > 0 and is 0 when a is 0. */
  lemma ScaledTopAboveAmount(a: real, p: real)
    requires a >= 0.0 && p >= 1.0
    ensures a > 0.0 ==> 1.1 * (a * p) > a
    ensures a == 0.0 ==> 1.1 * (a * p) == 0.0
  {
    assert a * p - a == a * (p - 1.0);
    MulNonNegative(a, p - 1.0);
  }

  /** With a NaN amount every point and both ends of the y-axis are NaN; the chart is still built. */
  lemma ChartUndefined(years: nat, v: Variant)
    ensures var c := BuildChart(None, years, v);
      && c.yMin == None && c.yMax == None
      && (forall k, i :: 0 <= k < 3 && 0 <= i <= years ==> c.datasets[k].data[i] == None)
  {
  }

  /**
   * On a stored digit string the chart amount is never negative, so the
   * `amount >= 0` guard of grove-calculator-v4.js always passes, zero
   * included; grove-calc.js reads an empty stored value as NaN.
   */
  lemma ChartAmountSpec(v: Variant, stored: string)
    requires IsDigits(stored)
    ensures v.chartAmountDefaultsToZero ==> ChartAmount(v, stored).Some? && ChartAmount(v, stored).value >= 0.0
    ensures stored != [] ==> ChartAmount(v, stored) == Some(DigitsToNat(stored) as real)
    ensures stored == [] ==> ChartAmount(v, stored) == if v.chartAmountDefaultsToZero then Some(0.0) else None
  {
    ParseDigits(stored);
  }
}
