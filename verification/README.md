# Grove investment calculator — a Dafny model

The grove calculator is a web widget. It reads an investment amount from a text field and a horizon in years from a selector. It draws a chart of three growth scenarios and shows headline numbers: the best scenario's end value and its lead over the other two. Two near-identical copies of the script are deployed, `grove-calculator-v4.js` and `grove-calc.js`. This project models both as one model, parameterised by a `Variant`:

- `V4` (grove-calculator-v4.js) uses rates 1.25 / 1.18 / 1.12. When no digits are left, the field is cleared and "0" is stored. Up/Down arrows step the amount. The input handler itself rebuilds the chart and the headlines. The chart reads an unparsable amount as 0.
- `GroveCalc` (grove-calc.js) uses rates 1.3 / 1.18 / 1.11. When no digits are left, the field is kept and "" is stored. There is no key stepping. The chart reads an empty amount as NaN.

Modules, one file each:

- `Digits`: digit strings and digit stripping (`replace(/\D/g, "")`).
- `Numbers`: JavaScript's `parseFloat`, `parseInt` and `Math.round`, on exact numbers. NaN is `None`.
- `Currency`: en-US whole-dollar formatting (`"$"` and comma-grouped digits), `formatNumber`, and the parse-back of a headline's text (`replace(/[^0-9.-]+/g, "")`, then `parseFloat`, defaulting to 0).
- `Growth`: the projected series `amount·rate^i` for `i = 0..years`, the labels, and `Math.max` of a series.
- `Variants`: the two deployed configurations.
- `Chart`: the data part of the chart configuration (labels, datasets, fill tags, y-range).
- `Headlines`: the end value and the two leads, and what the headline slots hold after an update.
- `Normalizer`: the amount field (shown text and stored raw value) under the input handler and the arrow keys.
- `Calculator`: class `Widget`, the mutable page state and its handlers.

The ghost counters `liveCharts` and `peakLive` record how many chart instances exist. The invariant `Valid` keeps `peakLive <= 1`: the old chart is destroyed before the new one is stored, so two charts are never live at once.

The stored raw value (`dataset.value`) is undefined before the first input event. It is modelled as "": every reader (`parseFloat`, `parseInt`, with or without `|| 0`) treats it exactly like "".

## Model

| member | source | states |
|---|---|---|
| Digits.StripNonDigits | grove-calculator-v4.js:12 | The stripped text holds only digits and is no longer than the input. Text made only of digits is unchanged. |
| Digits.StripEmpty | grove-calculator-v4.js:12-15 | The stripped text is empty exactly when the input has no digit, which is when the handler takes its empty branch. |
| Digits.StripKeepsDigits | grove-calculator-v4.js:12 | Stripping keeps every digit, as many times as it occurs, and drops every other character. |
| Digits.StripConcat | grove-calculator-v4.js:12 | Stripping the concatenation of two texts is the concatenation of the two stripped texts. |
| Digits.NatToDigits | grove-calculator-v4.js:51 | `toString` of a whole number below 10^21 is non-empty digit text with no leading zero. The model writes digits for every n (see `Normalizer.KeyDown` under Left out). |
| Digits.DigitsRoundTrip | grove-calculator-v4.js:51 | The decimal text of n reads back as n. |
| Digits.CanonicalRoundTrip | grove-calculator-v4.js:12-24 | Digit text without a leading zero is the decimal text of its own value. |
| Digits.LeadingDigits | grove-calculator-v4.js:41 | The digits `parseInt` reads are the longest digit prefix of the text. |
| Numbers.Round | grove-calculator-v4.js:173 | `Math.round` returns the integer within one half of x, taking halves upward. |
| Numbers.ParseUnsigned | grove-calculator-v4.js:177 | Unsigned `parseFloat` never yields a negative number. |
| Numbers.ParseDigits | grove-calculator-v4.js:41 | On stored digit text, `parseFloat` and `parseInt` give NaN when it is empty and its value otherwise. |
| Numbers.ParseSignedDigits | grove-calculator-v4.js:177 | `parseFloat` of an optional "-" followed by digits is the signed value of those digits. |
| Numbers.ParseFloat | grove-calculator-v4.js:75 | `parseFloat` reads an optional minus sign and the longest prefix of the form digits[.digits] or .digits, and gives NaN (`None`) when that prefix holds no digit. It is also used at grove-calculator-v4.js:177 and 194 and grove-calc.js:37, 137 and 153. It has no `ensures`: its meaning on digit text and on signed digit text is stated by `ParseDigits` and `ParseSignedDigits`. |
| Numbers.ParseInt | grove-calculator-v4.js:41 | `parseInt` reads the leading whole number, and NaN (`None`) when there is none. It has no `ensures`: `ParseDigits` states that on digit text it gives the value of those digits. |
| Currency.Group | grove-calculator-v4.js:16-21 | Grouping n digits inserts one comma per full group of three after the first: (n-1)/3 commas. |
| Currency.GroupShape | grove-calculator-v4.js:16-21 | Counting from the right, a comma sits exactly at every fourth position and nowhere else. |
| Currency.GroupDigits | grove-calculator-v4.js:16-21 | Counting from the right, every position that is not a comma holds the digits of the number in order: position i holds digit i - i/4. |
| Currency.StripGroup | grove-calculator-v4.js:12-21 | Stripping non-digits from grouped digits gives the digits back. |
| Currency.KeepGroup | grove-calculator-v4.js:173-177 | Keeping only the numeric characters of grouped digits gives the digits back. |
| Currency.FormatCurrency | grove-calculator-v4.js:16-21 | The currency text starts with "$" and has at least one more character. |
| Currency.StripFormatCurrency | grove-calculator-v4.js:12-24 | Stripping the currency text of n gives the decimal text of n, whose value is n. |
| Currency.FormatNumber | grove-calculator-v4.js:172-174 | `formatNumber` text starts with "$" and has at least one more character. |
| Currency.KeepNumeric | grove-calculator-v4.js:177 | The kept text holds only digits, "." and "-", and is no longer than the input. |
| Currency.KeepNumericConcat | grove-calculator-v4.js:177 | Keeping numeric characters distributes over concatenation. |
| Currency.KeepNumericFormatNumber | grove-calculator-v4.js:177 | The numeric characters of `formatNumber(x)` are the sign of x followed by the digits of `Math.round(x)` without its sign. |
| Currency.ParseBackFormatNumber | grove-calculator-v4.js:172-177 | Reading back what `formatNumber(x)` wrote gives exactly `Math.round(x)`. It holds for grove-calc.js as well (grove-calc.js:132-137). |
| Currency.ParseBack | grove-calculator-v4.js:177 | The tween start: the text with everything but digits, "." and "-" removed, read by `parseFloat`, or 0 for NaN (grove-calc.js:137 is the same). It has no `ensures`: `ParseBackFormatNumber` states that it reads `formatNumber` text back as the number, and `KeepGroup` that grouping commas are dropped. |
| Growth.Project | grove-calculator-v4.js:82-84 | Each series has exactly `years + 1` points. |
| Growth.Pow | grove-calculator-v4.js:82-84 | `Math.pow` with a whole exponent. It has no `ensures`: `PowAtLeastOne`, `PowMonotone` and `PowBaseMonotone` state that it is at least 1 and grows with the exponent and the base for rates of at least 1, and `ProjectShape` that point i of a series is the amount times the rate to the power i. |
| Growth.EndValue | grove-calculator-v4.js:200-202 | The headline value of one rate after the horizon (grove-calc.js:157-159). It has no `ensures`: `ProjectShape` and `ProjectMaxIsLast` state that it is the last point of that rate's chart series, and the largest. |
| Growth.ProjectShape | grove-calculator-v4.js:82-84 | Point i is `amount·rate^i`, so point 0 is the amount and the last point is the end value. |
| Growth.ProjectNonDecreasing | grove-calculator-v4.js:82 | With a non-negative amount and a rate of at least 1, the series never decreases. |
| Growth.MaxOf | grove-calculator-v4.js:87 | `Math.max` of a series is one of its points and no point exceeds it. |
| Growth.ProjectMaxIsLast | grove-calculator-v4.js:87-88 | The maximum of such a series is its last point, the end value. |
| Growth.ProjectZero | grove-calculator-v4.js:79 | A zero amount gives an all-zero series. |
| Growth.PowBaseMonotone | grove-calculator-v4.js:200-202 | A larger rate of at least 1 never gives a smaller power. |
| Growth.Labels | grove-calculator-v4.js:100 | There are `years + 1` labels. |
| Growth.LabelsSpec | grove-calculator-v4.js:100 | Label i is the decimal text of i. |
| Variants.DeployedWellFormed | grove-calculator-v4.js:82-84 | In both copies the rates are ordered from best to worst and are all at least 1. |
| Chart.ChartShape | grove-calculator-v4.js:100-129 | Whatever the amount, the chart has one label per year, three datasets with fill tags "+1", "+1", "origin", and each dataset as long as the labels. |
| Chart.ChartAmount | grove-calculator-v4.js:75 | The amount the chart draws: the stored value read by `parseFloat`, with NaN turned into 0 in v4 and kept as NaN in grove-calc.js:37. It has no `ensures`: `ChartAmountSpec` states its meaning. |
| Chart.BuildChart | grove-calculator-v4.js:82-153 | The chart descriptor built from the amount and the horizon (grove-calc.js:41-111). It has no `ensures`: see `ChartShape`, `ChartSeries`, `ChartRange` and `ChartUndefined`. |
| Chart.ChartSeries | grove-calculator-v4.js:82-84 | For a defined amount, dataset k compounds the amount at its own rate, its first point is the amount, and the y-axis minimum is the amount. It holds for grove-calc.js as well (grove-calc.js:41-43). |
| Chart.ChartRange | grove-calculator-v4.js:87-153 | The y-axis maximum is 1.1 times the last point of series A, the best series for the deployed rates; only a rate A of at least 1 is needed. It is above the minimum when the amount is positive, and 0 when the amount is 0. It holds for grove-calc.js as well (grove-calc.js:46-111). |
| Chart.ChartUndefined | grove-calc.js:37-48 | With a NaN amount the chart is still built: every point and both ends of the y-axis are NaN. |
| Chart.ChartAmountSpec | grove-calculator-v4.js:75-79 | With digit text stored, the v4 chart amount is defined and never negative, so the `amount >= 0` guard always passes, zero included. Otherwise the amount is the stored value, and an empty store is NaN in grove-calc.js. |
| Headlines.WritesUpdateSlots | grove-calculator-v4.js:215-220 | After the four guarded writes, exactly the slots present before are present, and each holds the text written for it. Each numeric slot's tween starts from its old text read back. |
| Headlines.HeadlineAmount | grove-calculator-v4.js:194 | The amount the headlines use: the stored value read by `parseFloat`, or 0 for NaN (grove-calc.js:153 is the same). It has no `ensures`: `AmountsAgree` states that it is never negative for stored digit text and agrees with the chart's amount. |
| Headlines.Target | grove-calculator-v4.js:200-206 | The end value of a numeric slot: `valueA`, `diffAB` or `diffAC` (grove-calc.js:157-163). It has no `ensures`: `HeadlinesMatchChart`, `HorizonZero` and `LeadsNonNegative` state its meaning. |
| Headlines.SlotText | grove-calculator-v4.js:215-220 | The text a slot finally shows: the horizon as decimal text, or `formatNumber` of the target (grove-calc.js:172-178). It has no `ensures`: `SlotTextReadsBack` and `WritesUpdateSlots` state its meaning. |
| Headlines.HeadlinesMatchChart | grove-calculator-v4.js:200-206 | `valueA` is the last point of series A. `diffAB` and `diffAC` are the differences of the last points of the chart's series. |
| Headlines.HorizonZero | grove-calculator-v4.js:200-206 | At 0 years `valueA` is the amount and both leads are 0. |
| Headlines.LeadsNonNegative | grove-calculator-v4.js:205-206 | With a non-negative amount and ordered rates, `0 <= diffAB <= diffAC`. |
| Headlines.SlotTextReadsBack | grove-calculator-v4.js:177-215 | The year slot reads back as the horizon. A numeric slot reads back as `Math.round` of its target, which is where the next tween starts. |
| Headlines.AmountsAgree | grove-calc.js:37-154 | The chart and the headlines read the same amount, which is never negative. The one exception: grove-calc.js draws an empty stored value as NaN while its headlines read it as 0. |
| Normalizer.Normalize | grove-calculator-v4.js:10-34 | After the input handler, the stored value is always digit text. |
| Normalizer.NormalizeStoresDigits | grove-calculator-v4.js:12-33 | The stored amount is the value of exactly the digits typed, never negative. When digits remain, the stored text is exactly those digits as typed, leading zeros included, and the display is the currency text of that amount. When none remain, v4 clears the field and stores "0", while grove-calc.js keeps the field and stores "". It holds for grove-calc.js as well (grove-calc.js:12-25). |
| Normalizer.NormalizeIdempotent | grove-calculator-v4.js:12-24 | Re-running the handler on what it displayed keeps the display and the amount. Without leading zeros typed, it changes nothing. |
| Normalizer.NormalizeFixpoint | grove-calculator-v4.js:51-57 | The field the arrow keys write is a fixed point of the input handler. |
| Normalizer.StoredAmount | grove-calculator-v4.js:41 | The stored value read by `parseInt`, or 0 for NaN. It has no `ensures`: `NormalizeStoresDigits` states that after the input handler it is the value of the typed digits, and `KeyDownSpec` that the arrow keys step from it. |
| Normalizer.Increment | grove-calculator-v4.js:42 | The arrow-key step: 10000 with Shift, 1000 without. It has no `ensures`: `Step` and `KeyDownSpec` state how it is used. |
| Normalizer.Step | grove-calculator-v4.js:44-48 | Up adds 1000 (10000 with Shift). Down subtracts the same step, but gives 0 instead of going below 0. |
| Normalizer.StepUpThenDown | grove-calculator-v4.js:44-48 | One Down press undoes one Up press with the same modifier. |
| Normalizer.KeyDown | grove-calculator-v4.js:37-62 | After a key press the stored value is still digit text, for amounts below 10^21 (see Left out). |
| Normalizer.KeyDownSpec | grove-calculator-v4.js:38-57 | Up and Down step from the stored amount (0 when none). The new amount's decimal text is stored, and its currency text is displayed ("$0" when Down reaches 0). That field is a fixed point of the input handler. Any other key, or grove-calc.js, changes nothing. |
| Calculator.Widget.constructor | grove-calculator-v4.js:7 | The page starts with "100000" in the field, nothing stored and no chart. |
| Calculator.Widget.CreateChart | grove-calculator-v4.js:73-161 | The chart becomes the one built from the stored amount. The old one is destroyed first, so at most one chart is ever live. Nothing else changes. It holds for grove-calc.js as well (grove-calc.js:36-118). |
| Calculator.Widget.AnimateNumber | grove-calculator-v4.js:176-190 | The tween starts from the slot's text read back. The slot ends showing `formatNumber` of the end value. |
| Calculator.Widget.ShowYears | grove-calculator-v4.js:215 | If the year slot is present, it shows the horizon. Otherwise the slots are unchanged. |
| Calculator.Widget.AnimateIfPresent | grove-calculator-v4.js:218-220 | If the slot is present, it is animated and its start value recorded. Otherwise nothing changes. |
| Calculator.Widget.UpdateValues | grove-calculator-v4.js:192-222 | Every present slot ends holding its target text and absent slots stay absent. Each numeric slot's start value is its old text read back. The field and the chart are untouched. It holds for grove-calc.js as well (grove-calc.js:152-178). |
| Calculator.Widget.OnInput | grove-calculator-v4.js:10-34 | The field becomes the normalised field. In v4, when digits remain, the chart is rebuilt and the headlines updated. Otherwise, and always in grove-calc.js (grove-calc.js:10-26), the chart and the slots are untouched. |
| Calculator.Widget.StepAmount | grove-calculator-v4.js:41-57 | The field becomes the stepped field described by `KeyDown`. |
| Calculator.Widget.OnKeyDown | grove-calculator-v4.js:37-62 | Up/Down step the field, rebuild the chart and update the headlines. Any other key, or grove-calc.js, changes nothing. |

## Left out

- Event wiring and DOM lookup (`Webflow.push`, `DOMContentLoaded`, `getElementById`, listener registration) are left out. Each handler is a method of `Widget`. Both copies also register `createChart` and `updateValues` as separate listeners, and the order in which the browser runs them is not modelled. The initial `input` event dispatched after set-up is a call to `OnInput` after the constructor.
- The year selector is a parameter `years: nat` of each handler, because it is a fixed list of whole numbers, so `parseInt(...) || 0` is not modelled for it.
- Chart.js rendering (colours, tension, dashes, hidden axes, responsiveness) is left out. Only labels, data, fill tags and the y-range are kept.
- gsap tweening (time, easing, intermediate frames) is left out. Only a tween's start value and the text it finally writes are kept. Earlier tweens are never cancelled, so nothing is claimed about overlapping tweens.
- `Intl.NumberFormat` and `toLocaleString` are foreign calls. They are modelled as en-US output: "$", an optional "-", and groups of three digits separated by commas. The browser's default locale used by `toLocaleString` is assumed to be en-US.
- IEEE-754 doubles are modelled as exact reals. So are `Math.pow` rounding, precision loss above 2^53, and the floating-point error of `1.1 * max`. NaN is modelled as `None`.
- `parseInt` and `parseFloat` are modelled for what reaches them: digit strings, and the numeric characters of a headline. Leading whitespace, "+", exponents and "Infinity" are not modelled.
- `e.preventDefault()` on arrow keys has no state in the model.
- Normalizer.KeyDown: amounts are modelled below 10^21, where `toString` writes plain digits. From 10^21 on, JavaScript writes exponent form ("1e+21"), which the next `parseInt` reads as 1. The model keeps writing digit text there, so `KeyDown`, `KeyDownSpec` and `Digits.NatToDigits` do not describe that case.
- Calculator.Widget.UpdateValues: the `amount >= 0` guard of grove-calculator-v4.js:197 is not written in the method. `Headlines.AmountsAgree` proves `HeadlineAmount(stored) >= 0` for stored digit text, which `Widget.Valid` keeps, so the guard always passes.
- Calculator.Widget.CreateChart: the `amount >= 0` guard of grove-calculator-v4.js is not written in the method. `Chart.ChartAmountSpec` proves it always holds for stored digit text, which `Widget.Valid` keeps.
