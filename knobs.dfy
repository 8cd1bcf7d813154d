/**
 * Conversions of the 12-bit ADC readings of the front-panel knobs
 * (get_delay, get_num_steps and the per-channel gate width) and the
 * clear button (get_clear_button).
 */
module Knobs {
  import opened Ports

  /** The ADC returns 12-bit conversions. */
  const ADC_MAX := 4095
  const ADC_FULL_SCALE := 4096

  /** MAX_NUM_STEPS: length of every channel's step memory. */
  const MAX_NUM_STEPS := 32

  /** get_delay returns (4096 + 128) - reading, so a tick lasts between these
      many loop iterations. */
  const MIN_DELAY := 129
  const MAX_DELAY := 4224

  /** PINB bit that the clear button pulls low. */
  const CLEAR_PIN := 5

  predicate IsReading(x: int)
  {
    0 <= x <= ADC_MAX
  }

  /** get_delay: tick length in loop iterations from the tempo knob;
      turning the knob up shortens the tick. */
  function Delay(tempoAdc: int): (d: nat)
    requires IsReading(tempoAdc)
    ensures MIN_DELAY <= d <= MAX_DELAY
    ensures tempoAdc == 0 <==> d == MAX_DELAY
    ensures tempoAdc == ADC_MAX <==> d == MIN_DELAY
  {
    (4096 + 128) - tempoAdc
  }

  /** One unit more on the tempo knob is one loop iteration less per tick. */
  lemma DelayStrictlyDecreasing(a: int, b: int)
    requires IsReading(a) && IsReading(b) && a <= b
    ensures Delay(b) + (b - a) == Delay(a)
  {
  }

  /** get_num_steps: the step-count knob in 32 bands of 128 readings each;
      band k (counting from 0) selects k + 1 steps. */
  function NumSteps(stepsAdc: int): (n: nat)
    requires IsReading(stepsAdc)
    ensures 1 <= n <= MAX_NUM_STEPS
    ensures (n - 1) * 128 <= stepsAdc < n * 128
  {
    stepsAdc / 128 + 1
  }

  /** The step count only changes when the knob crosses a band boundary. */
  lemma NumStepsMonotonic(a: int, b: int)
    requires IsReading(a) && IsReading(b) && a <= b
    ensures NumSteps(a) <= NumSteps(b)
  {
  }

  /** Gate width of a channel: the knob's fraction of the tick,
      `(reading * delay) / 4096` rounded down, but never 0. The product fits
      in the firmware's uint32_t because delay is at most MAX_DELAY. */
  function Threshold(knobAdc: int, delay: nat): (t: nat)
    requires IsReading(knobAdc)
    requires 1 <= delay <= MAX_DELAY
    ensures 1 <= t <= delay
    ensures knobAdc * delay >= ADC_FULL_SCALE ==>
              t * ADC_FULL_SCALE <= knobAdc * delay < (t + 1) * ADC_FULL_SCALE
    ensures knobAdc * delay < ADC_FULL_SCALE ==> t == 1
  {
    ProductBelowFullScale(knobAdc, delay);
    var raw := (knobAdc * delay) / ADC_FULL_SCALE;
    if raw == 0 then 1 else raw
  }

  /** A reading times the tick length stays below full scale times the
      tick length, so the rounded-down quotient is below the tick length. */
  lemma ProductBelowFullScale(knobAdc: int, delay: nat)
    requires IsReading(knobAdc) && 1 <= delay
    ensures 0 <= knobAdc * delay < ADC_FULL_SCALE * delay
    ensures (knobAdc * delay) / ADC_FULL_SCALE < delay
  {
    assert (ADC_FULL_SCALE - knobAdc) * delay > 0;
  }

  /** get_clear_button: the clear button is held when PINB bit 5 reads 0;
      no other pin of PINB matters. */
  predicate ClearButton(pinb: bv8)
    ensures ClearButton(pinb) <==> !Bit(pinb, CLEAR_PIN)
    ensures ClearButton(pinb) == ClearButton(pinb & Mask(CLEAR_PIN))
  {
    PinLow(pinb, CLEAR_PIN)
  }
}
