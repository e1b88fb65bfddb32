/**
 * The two deployed copies of the widget differ only in constants and in a
 * few behaviours; each difference is one field here.
 */
module Variants {

  datatype Variant = Variant(
    rateA: real,                     // the best-case growth factor per year
    rateB: real,                     // the middle growth factor
    rateC: real,                     // the worst-case growth factor
    emptyStoresZero: bool,           // an input left without digits clears the field and stores "0"
    arrowKeys: bool,                 // Up/Down step the amount
    refreshOnInput: bool,            // the input handler itself rebuilds the chart and headlines
    chartAmountDefaultsToZero: bool  // the chart reads an unparsable amount as 0 rather than NaN
  )

  /** grove-calculator-v4.js */
  const V4: Variant := Variant(1.25, 1.18, 1.12, true, true, true, true)

  /** grove-calc.js */
  const GroveCalc: Variant := Variant(1.3, 1.18, 1.11, false, false, false, false)

  /** The rates are ordered best to worst and none shrinks the amount. */
  predicate WellFormed(v: Variant) {
    1.0 <= v.rateC <= v.rateB <= v.rateA
  }

  /** Both deployed copies order their rates best to worst, all at least 1. */
  lemma DeployedWellFormed()
    ensures WellFormed(V4) && WellFormed(GroveCalc)
  {
  }
}
