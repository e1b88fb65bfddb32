/**
 * The widget's mutable state and its event handlers: the amount field, the
 * single live chart and the headline slots.
 */
module Calculator {
  import opened Wrappers
  import opened Digits
  import opened Numbers
  import opened Currency
  import opened Variants
  import opened Chart
  import opened Headlines
  import opened Normalizer

  class Widget {
    const variant: Variant
    /** The amount field's text (`input.value`). */
    var display: string
    /** The raw amount beside it (`input.dataset.value`); "" before the first input event. */
    var stored: string
    /** The live chart (`myChart`), if any. */
    var chart: Option<ChartDescriptor>
    /** How many chart instances exist and have not been destroyed. */
    ghost var liveCharts: nat
    /** The most that ever existed at once. */
    ghost var peakLive: nat
    /** The text of each headline slot present on the page. */
    var slots: map<Slot, string>

    ghost predicate Valid()
      reads this
    {
      && IsDigits(stored)
      && liveCharts <= peakLive <= 1
      && (chart.Some? <==> liveCharts == 1)
    }

    /** The page set-up: the field shows the default amount, nothing is stored yet and no chart exists. */
    constructor (v: Variant, present: map<Slot, string>)
      ensures Valid()
      ensures variant == v && display == "100000" && stored == ""
      ensures chart == None && liveCharts == 0 && slots == present
    {
      variant := v;
      display := "100000";
      stored := "";
      chart := None;
      liveCharts := 0;
      peakLive := 0;
      slots := present;
    }

    /**
     * `createChart`: build the configuration from the stored amount, destroy
     * the old chart, then store the new one; at no point are two charts live.
     */
    method CreateChart(years: nat)
      requires Valid()
      modifies this
      ensures Valid()
      ensures chart == Some(BuildChart(ChartAmount(variant, stored), years, variant))
      ensures liveCharts == 1 && peakLive >= old(peakLive)
      ensures display == old(display) && stored == old(stored) && slots == old(slots)
    {
      var amount := ChartAmount(variant, stored);
      var next := BuildChart(amount, years, variant);
      if chart.Some? {
        chart := None;
        liveCharts := liveCharts - 1;
      }
      chart := Some(next);
      liveCharts := liveCharts + 1;
      if liveCharts > peakLive {
        peakLive := liveCharts;
      }
    }

    /**
     * `animateNumber`: the tween starts from the slot's current text read
     * back and leaves the slot showing the formatted end value.
     */
    method AnimateNumber(slot: Slot, endValue: real) returns (start: real)
      requires slot in slots
      modifies this`slots
      ensures start == ParseBack(old(slots)[slot])
      ensures slots == old(slots)[slot := FormatNumber(endValue)]
    {
      start := ParseBack(slots[slot]);
      slots := slots[slot := FormatNumber(endValue)];
    }

    /** One guarded write of `updateValues`: the year slot, when present, shows the horizon. */
    method ShowYears(years: nat)
      modifies this`slots
      ensures slots == if SelectedYears in old(slots) then old(slots)[SelectedYears := NatToDigits(years)] else old(slots)
    {
      if SelectedYears in slots {
        slots := slots[SelectedYears := NatToDigits(years)];
      }
    }

    /**
     * One guarded animation of `updateValues`: a numeric slot, when present,
     * is animated to `endValue` and the value its tween starts from is
     * recorded in `starts`.
     */
    method AnimateIfPresent(slot: Slot, endValue: real, starts: map<Slot, real>) returns (starts': map<Slot, real>)
      modifies this`slots
      ensures slots == if slot in old(slots) then old(slots)[slot := FormatNumber(endValue)] else old(slots)
      ensures starts' == if slot in old(slots) then starts[slot := ParseBack(old(slots)[slot])] else starts
    {
      starts' := starts;
      if slot in slots {
        var start := AnimateNumber(slot, endValue);
        starts' := starts'[slot := start];
      }
    }

    /**
     * `updateValues`: write the horizon into the year slot and animate each
     * numeric slot to its target; absent slots are skipped. Returns the value
     * each numeric slot's tween starts from.
     */
    method UpdateValues(years: nat) returns (starts: map<Slot, real>)
      requires Valid()
      modifies this
      ensures Valid()
      ensures SlotsUpdated(old(slots), slots, HeadlineAmount(stored), years, variant)
      ensures TweensStartFrom(old(slots), starts)
      ensures display == old(display) && stored == old(stored) && chart == old(chart)
      ensures liveCharts == old(liveCharts) && peakLive == old(peakLive)
    {
      var amount := HeadlineAmount(stored);
      var valueA := Target(ValueA, amount, years, variant);
      var diffAB := Target(DiffAB, amount, years, variant);
      var diffAC := Target(DiffAC, amount, years, variant);

      ghost var s0 := slots;
      ShowYears(years);
      ghost var s1 := slots;
      starts := AnimateIfPresent(ValueA, valueA, map[]);
      ghost var s2, t1 := slots, starts;
      starts := AnimateIfPresent(DiffAB, diffAB, starts);
      ghost var s3, t2 := slots, starts;
      starts := AnimateIfPresent(DiffAC, diffAC, starts);
      ghost var text := (s: Slot) => SlotText(s, amount, years, variant);
      WritesUpdateSlots(s0, s1, s2, s3, slots, t1, t2, starts, text, ParseBack);
    }

    /**
     * The input handler. grove-calculator-v4.js also rebuilds the chart and
     * the headlines itself when digits remain.
     */
    method OnInput(years: nat)
      requires Valid()
      modifies this
      ensures Valid()
      ensures peakLive >= old(peakLive)
      ensures Field(display, stored) == Normalize(variant, Field(old(display), old(stored)))
      ensures variant.refreshOnInput && StripNonDigits(old(display)) != [] ==>
        && chart == Some(BuildChart(ChartAmount(variant, stored), years, variant))
        && SlotsUpdated(old(slots), slots, HeadlineAmount(stored), years, variant)
      ensures !(variant.refreshOnInput && StripNonDigits(old(display)) != []) ==>
        chart == old(chart) && slots == old(slots)
    {
      var value := StripNonDigits(display);
      if value != [] {
        display := FormatCurrency(DigitsToNat(value));
        stored := value;
        if variant.refreshOnInput {
          CreateChart(years);
          var starts := UpdateValues(years);
        }
      } else if variant.emptyStoresZero {
        display := "";
        stored := "0";
      } else {
        stored := value;
      }
    }

    /** Up/Down in grove-calculator-v4.js: step the stored amount and rewrite the field. */
    method StepAmount(key: Key, shift: bool)
      requires IsDigits(stored) && variant.arrowKeys && key != OtherKey
      modifies this`display, this`stored
      ensures Field(display, stored) == KeyDown(variant, Field(old(display), old(stored)), key, shift)
    {
      ParseDigits(stored);
      var currentValue := StoredAmount(stored);
      var increment := Increment(shift);
      if key == ArrowUp {
        currentValue := currentValue + increment;
      } else {
        currentValue := if 0 > currentValue - increment then 0 else currentValue - increment;
      }
      stored := NatToDigits(currentValue);
      display := FormatCurrency(currentValue);
    }

    /**
     * The key handler of grove-calculator-v4.js: Up/Down step the stored
     * amount, rewrite the field and rebuild the chart and the headlines;
     * every other key, and every key in grove-calc.js, is left alone.
     */
    method OnKeyDown(key: Key, shift: bool, years: nat)
      requires Valid()
      modifies this
      ensures Valid()
      ensures peakLive >= old(peakLive)
      ensures Field(display, stored) == KeyDown(variant, Field(old(display), old(stored)), key, shift)
      ensures variant.arrowKeys && key != OtherKey ==>
        && chart == Some(BuildChart(ChartAmount(variant, stored), years, variant))
        && SlotsUpdated(old(slots), slots, HeadlineAmount(stored), years, variant)
      ensures !(variant.arrowKeys && key != OtherKey) ==>
        chart == old(chart) && slots == old(slots)
    {
      if variant.arrowKeys && (key == ArrowUp || key == ArrowDown) {
        StepAmount(key, shift);
        CreateChart(years);
        var starts := UpdateValues(years);
      }
    }
  }
}
