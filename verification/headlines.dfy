/**
 * The headline numbers `updateValues` writes: the selected horizon, the best
 * case's end value and its leads over the other two scenarios, each shown
 * as `formatNumber` text in an optional slot.
 */
module Headlines {
  import opened Wrappers
  import opened Digits
  import opened Numbers
  import opened Currency
  import opened Growth
  import opened Variants
  import opened Chart

  /** The display slots; a slot missing from the page is missing from the map. */
  datatype Slot = SelectedYears | ValueA | DiffAB | DiffAC

  /** `parseFloat(stored) || 0`: the amount the headlines are computed from. */
  function HeadlineAmount(stored: string): real {
    ParseFloat(stored).GetOr(0.0)
  }

  /** The value a numeric slot animates towards. */
  function Target(slot: Slot, amount: real, years: nat, v: Variant): real
    requires slot != SelectedYears
  {
    var valueA := EndValue(amount, years, v.rateA);
    match slot
    case ValueA => valueA
    case DiffAB => valueA - EndValue(amount, years, v.rateB)
    case DiffAC => valueA - EndValue(amount, years, v.rateC)
  }

  /** The text a slot holds once updated (for a numeric slot, once its tween has finished). */
  function SlotText(slot: Slot, amount: real, years: nat, v: Variant): string {
    if slot == SelectedYears then NatToDigits(years) else FormatNumber(Target(slot, amount, years, v))
  }

  /** `after` holds the updated text of every slot present in `before`; absent slots stay absent. */
  predicate SlotsUpdated(before: map<Slot, string>, after: map<Slot, string>, amount: real, years: nat, v: Variant) {
    && after.Keys == before.Keys
    && forall s :: s in after ==> after[s] == SlotText(s, amount, years, v)
  }

  /** `starts` holds, for each numeric slot present, its text before the update read back. */
  predicate TweensStartFrom(before: map<Slot, string>, starts: map<Slot, real>) {
    && starts.Keys == before.Keys - {SelectedYears}
    && forall s :: s in starts ==> starts[s] == ParseBack(before[s])
  }

  /**
   * The four guarded writes of `updateValues`, one slot at a time and each
   * made only when its slot is present, with a read of each numeric slot's
   * text just before it is written: the keys stay those of `s0`, every
   * present slot ends up holding `text` of it, and the reads see each
   * numeric slot's text in `s0`.
   */
  lemma WritesUpdateSlots(
    s0: map<Slot, string>, s1: map<Slot, string>, s2: map<Slot, string>,
    s3: map<Slot, string>, s4: map<Slot, string>,
    t1: map<Slot, real>, t2: map<Slot, real>, t3: map<Slot, real>,
    text: Slot -> string, read: string -> real)
    requires s1 == if SelectedYears in s0 then s0[SelectedYears := text(SelectedYears)] else s0
    requires s2 == if ValueA in s1 then s1[ValueA := text(ValueA)] else s1
    requires s3 == if DiffAB in s2 then s2[DiffAB := text(DiffAB)] else s2
    requires s4 == if DiffAC in s3 then s3[DiffAC := text(DiffAC)] else s3
    requires t1 == if ValueA in s1 then map[ValueA := read(s1[ValueA])] else map[]
    requires t2 == if DiffAB in s2 then t1[DiffAB := read(s2[DiffAB])] else t1
    requires t3 == if DiffAC in s3 then t2[DiffAC := read(s3[DiffAC])] else t2
    ensures s4.Keys == s0.Keys
    ensures forall s :: s in s4 ==> s4[s] == text(s)
    ensures t3.Keys == s0.Keys - {SelectedYears}
    ensures forall s :: s in t3 ==> t3[s] == read(s0[s])
  {
    forall s | s in s4
      ensures s4[s] == text(s)
    {
      match s
      case SelectedYears =>
      case ValueA =>
      case DiffAB =>
      case DiffAC =>
    }
    forall s | s in s0.Keys - {SelectedYears}
      ensures s in t3
    {
      match s
      case ValueA =>
      case DiffAB =>
      case DiffAC =>
    }
  }

  /**
   * The headline numbers are read off the chart's own series for the same
   * amount and horizon: the end value is the best case's last point and
   * each lead is the difference of two last points.
   */
  lemma HeadlinesMatchChart(a: real, years: nat, v: Variant)
    ensures var c := BuildChart(Some(a), years, v);
      && c.datasets[0].data[years] == Some(Target(ValueA, a, years, v))
      && c.datasets[0].data[years].value - c.datasets[1].data[years].value == Target(DiffAB, a, years, v)
      && c.datasets[0].data[years].value - c.datasets[2].data[years].value == Target(DiffAC, a, years, v)
  {
    var c := BuildChart(Some(a), years, v);
    ProjectShape(a, years, v.rateA);
    ProjectShape(a, years, v.rateB);
    ProjectShape(a, years, v.rateC);
    assert c.datasets[0].data == Defined(Project(a, years, v.rateA));
    assert c.datasets[1].data == Defined(Project(a, years, v.rateB));
    assert c.datasets[2].data == Defined(Project(a, years, v.rateC));
  }

  /** At a horizon of 0 the end value is the amount and both leads are exactly 0. */
  lemma HorizonZero(a: real, v: Variant)
    ensures Target(ValueA, a, 0, v) == a
    ensures Target(DiffAB, a, 0, v) == 0.0 && Target(DiffAC, a, 0, v) == 0.0
  {
  }

  /** With ordered rates and a non-negative amount, the leads are never negative and the lead over the worst case is the larger. */
  lemma LeadsNonNegative(a: real, years: nat, v: Variant)
    requires a >= 0.0 && WellFormed(v)
    ensures 0.0 <= Target(DiffAB, a, years, v) <= Target(DiffAC, a, years, v)
  {
    PowBaseMonotone(v.rateB, v.rateA, years);
    PowBaseMonotone(v.rateC, v.rateB, years);
    var pa, pb, pc := Pow(v.rateA, years), Pow(v.rateB, years), Pow(v.rateC, years);
    assert a * pa - a * pb == a * (pa - pb);
    assert a * (pa - pb) >= 0.0;
    assert a * pb - a * pc == a * (pb - pc);
    assert a * (pb - pc) >= 0.0;
  }

  /**
   * What a slot shows reads back as what the next update starts from: the
   * year slot holds the decimal text of the horizon, and a numeric slot
   * parses back to `Math.round` of its target.
   */
  lemma SlotTextReadsBack(slot: Slot, amount: real, years: nat, v: Variant)
    ensures slot == SelectedYears ==> DigitsToNat(SlotText(slot, amount, years, v)) == years
    ensures slot != SelectedYears ==>
      ParseBack(SlotText(slot, amount, years, v)) == Round(Target(slot, amount, years, v)) as real
  {
    if slot == SelectedYears {
      DigitsRoundTrip(years);
    } else {
      ParseBackFormatNumber(Target(slot, amount, years, v));
    }
  }

  /**
   * Chart and headlines are computed from the same stored value. They agree
   * on the amount, except that grove-calc.js draws an empty stored value as
   * NaN while its headlines read it as 0.
   */
  lemma AmountsAgree(v: Variant, stored: string)
    requires IsDigits(stored)
    ensures HeadlineAmount(stored) >= 0.0
    ensures ChartAmount(v, stored).Some? ==> ChartAmount(v, stored) == Some(HeadlineAmount(stored))
    ensures ChartAmount(v, stored).None? <==> !v.chartAmountDefaultsToZero && stored == []
    ensures ChartAmount(v, stored).None? ==> HeadlineAmount(stored) == 0.0
  {
    ParseDigits(stored);
  }
}
