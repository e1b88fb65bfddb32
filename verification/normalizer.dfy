/**
 * The amount field: what the input handler and (in grove-calculator-v4.js)
 * the Up/Down key handler make of the text shown and the value stored
 * beside it (`this.value` and `this.dataset.value`).
 */
module Normalizer {
  import opened Wrappers
  import opened Digits
  import opened Numbers
  import opened Currency
  import opened Variants

  /** The field's text and its stored raw value. */
  datatype Field = Field(display: string, stored: string)

  datatype Key = ArrowUp | ArrowDown | OtherKey

  /** The input handler: keep the digits, redisplay them as currency, store them. */
  function Normalize(v: Variant, f: Field): (r: Field)
    ensures IsDigits(r.stored)
  {
    var value := StripNonDigits(f.display);
    if value != [] then Field(FormatCurrency(DigitsToNat(value)), value)
    else if v.emptyStoresZero then Field("", "0")
    else Field(f.display, value)
  }

  /** `parseInt(stored) || 0`: the amount the key handler steps from. */
  function StoredAmount(stored: string): int {
    ParseInt(stored).GetOr(0)
  }

  /** The step of one key press: 1000, or 10000 with Shift. */
  function Increment(shift: bool): nat {
    if shift then 10000 else 1000
  }

  /** The amount after one Up or Down press; Down never goes below 0. */
  function Step(current: int, key: Key, shift: bool): (n: int)
    requires key != OtherKey
    ensures key == ArrowUp ==> n == current + Increment(shift)
    ensures key == ArrowDown ==> n >= 0
    ensures key == ArrowDown && current >= Increment(shift) ==> n == current - Increment(shift)
    ensures key == ArrowDown && current < Increment(shift) ==> n == 0
  {
    if key == ArrowUp then current + Increment(shift)
    else if current - Increment(shift) > 0 then current - Increment(shift) else 0
  }

  /** The key handler's effect on the field. */
  function KeyDown(v: Variant, f: Field, key: Key, shift: bool): (r: Field)
    requires IsDigits(f.stored)
    ensures IsDigits(r.stored)
  {
    if v.arrowKeys && key != OtherKey then
      var current := StoredAmount(f.stored);
      ParseDigits(f.stored);
      var n := Step(current, key, shift);
      Field(FormatCurrency(n), NatToDigits(n))
    else f
  }

  /**
   * The stored amount is the value of exactly the digits typed, 0 when there
   * are none, so no keystrokes can store a negative or fractional amount;
   * when digits remain they are stored exactly as typed (leading zeros
   * included) and the display is the currency text of their amount.
   */
  lemma NormalizeStoresDigits(v: Variant, f: Field)
    ensures StoredAmount(Normalize(v, f).stored) == DigitsToNat(StripNonDigits(f.display))
    ensures StoredAmount(Normalize(v, f).stored) >= 0
    ensures StripNonDigits(f.display) != [] ==> Normalize(v, f).stored == StripNonDigits(f.display)
    ensures StripNonDigits(f.display) != [] ==>
      Normalize(v, f).display == FormatCurrency(StoredAmount(Normalize(v, f).stored))
    ensures StripNonDigits(f.display) == [] ==>
      Normalize(v, f) == if v.emptyStoresZero then Field("", "0") else Field(f.display, "")
  {
    var r := Normalize(v, f);
    ParseDigits(r.stored);
    if StripNonDigits(f.display) == [] && v.emptyStoresZero {
      assert DigitsToNat("0") == 0 by {
        assert "0"[..0] == [];
      }
    }
  }

  /**
   * Running the input handler again on what it just displayed changes
   * neither the display nor the amount; with no leading zeros typed, it
   * changes nothing at all.
   */
  lemma NormalizeIdempotent(v: Variant, f: Field)
    ensures Normalize(v, Normalize(v, f)).display == Normalize(v, f).display
    ensures StoredAmount(Normalize(v, Normalize(v, f)).stored) == StoredAmount(Normalize(v, f).stored)
    ensures IsCanonical(StripNonDigits(f.display)) || StripNonDigits(f.display) == [] ==>
      Normalize(v, Normalize(v, f)) == Normalize(v, f)
  {
    var d := StripNonDigits(f.display);
    var r := Normalize(v, f);
    NormalizeStoresDigits(v, f);
    NormalizeStoresDigits(v, r);
    if d != [] {
      StripFormatCurrency(DigitsToNat(d));
      if IsCanonical(d) {
        CanonicalRoundTrip(d);
      }
    } else if v.emptyStoresZero {
      assert StripNonDigits("") == [];
    } else {
      assert r == Field(f.display, "");
    }
  }

  /** The currency text of an amount, stored as its decimal text, is a fixed point of the input handler. */
  lemma NormalizeFixpoint(v: Variant, n: nat)
    ensures Normalize(v, Field(FormatCurrency(n), NatToDigits(n))) == Field(FormatCurrency(n), NatToDigits(n))
  {
    StripFormatCurrency(n);
  }

  /**
   * Up adds the step and Down subtracts it without going below 0, starting
   * from the stored amount (0 when none); both leave the field as the input
   * handler would format that amount; any other key, or a variant without
   * key stepping, changes nothing.
   */
  lemma KeyDownSpec(v: Variant, f: Field, key: Key, shift: bool)
    requires IsDigits(f.stored)
    ensures var r := KeyDown(v, f, key, shift);
      && (v.arrowKeys && key == ArrowUp ==>
            StoredAmount(r.stored) == StoredAmount(f.stored) + Increment(shift))
      && (v.arrowKeys && key == ArrowDown ==>
            StoredAmount(r.stored) == if StoredAmount(f.stored) >= Increment(shift)
                                      then StoredAmount(f.stored) - Increment(shift) else 0)
      && (v.arrowKeys && key != OtherKey ==> Normalize(v, r) == r && StoredAmount(r.stored) >= 0)
      && (v.arrowKeys && key != OtherKey ==>
            && r.display == FormatCurrency(StoredAmount(r.stored))
            && r.stored == NatToDigits(StoredAmount(r.stored)))
      && (!v.arrowKeys || key == OtherKey ==> r == f)
  {
    ParseDigits(f.stored);
    if v.arrowKeys && key != OtherKey {
      var n: nat := Step(StoredAmount(f.stored), key, shift);
      DigitsRoundTrip(n);
      ParseDigits(NatToDigits(n));
      NormalizeFixpoint(v, n);
    }
  }

  /** Down undoes Up: one press each way, with the same modifier, gives back the amount. */
  lemma StepUpThenDown(current: nat, shift: bool)
    ensures Step(Step(current, ArrowUp, shift), ArrowDown, shift) == current
  {
  }
}
