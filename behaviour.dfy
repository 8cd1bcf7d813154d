/**
 * What one iteration of the control loop, and a run of iterations, does to
 * the sequencer: the tempo re-read schedule, the record rules, the gates,
 * the tick, and the step-count display.
 */
module Behaviour {
  import opened Ports
  import opened Leds
  import opened Knobs
  import opened Channels
  import opened Machine

  /** The tick length is re-read exactly when `global_count % 512 == 0`
      and kept otherwise; `global_count` advances by one, as a uint32_t. */
  lemma StepCounters(s: State, inp: Inputs)
    requires Valid(s) && ValidInputs(inp)
    ensures var t := StepSpec(s, inp);
      t.globalCount == Uint32Inc(s.globalCount) &&
      (s.globalCount % DELAY_RELOAD_PERIOD == 0 ==> t.delay == Delay(inp.adc[TEMPO_ADC])) &&
      (s.globalCount % DELAY_RELOAD_PERIOD != 0 ==> t.delay == s.delay)
  {
  }

  /** The record rule of channel i over a whole iteration: the button is
      latched, clear wins, a press (or, for the fill channel, a hold) sets
      the current step, nothing else in its step memory changes, and the
      pass ends with `pressedPrev == pressedNow`. */
  lemma StepRecording(s: State, inp: Inputs, i: nat)
    requires Valid(s) && ValidInputs(inp) && i < NUM_CHANNELS
    ensures var t := StepSpec(s, inp);
      var ch := s.channels[i];
      var pressed := Buttons(inp.pind, inp.pinb)[i];
      var clear := ClearButton(inp.pinb);
      t.channels[i].pressedNow == pressed &&
      t.channels[i].pressedPrev == pressed &&
      (pressed && clear ==> t.channels[i].sequence == ch.sequence[s.count := false]) &&
      (pressed && !clear && (ch.allowFill || !ch.pressedPrev) ==>
         t.channels[i].sequence == ch.sequence[s.count := true]) &&
      (!pressed || (!clear && !ch.allowFill && ch.pressedPrev) ==>
         t.channels[i].sequence == ch.sequence)
  {
    var p := Prelude(s, inp);
    var clear := ClearButton(inp.pinb);
    assert p.channels[i] == s.channels[i].(pressedNow := Buttons(inp.pind, inp.pinb)[i]);
    var c := ChannelPass(p, clear, inp.adc);
    assert c.channels[i] == Record(p.channels[i], clear, s.count);
    assert StepSpec(s, inp).channels == c.channels;
  }

  /** The gate of channel i after an iteration: PORTB bit 4 - i is high
      exactly when the (just recorded) current step is set and the tick so
      far is shorter than the channel's gate width, both taken before the
      tick update. */
  lemma StepGate(s: State, inp: Inputs, i: nat)
    requires Valid(s) && ValidInputs(inp) && i < NUM_CHANNELS
    ensures var t := StepSpec(s, inp);
      var delay := ReloadDelay(s.globalCount, s.delay, inp.adc[TEMPO_ADC]);
      Bit(t.portb, 4 - i) ==
        (t.channels[i].sequence[s.count] &&
         s.cyclesSinceLastTick < Threshold(inp.adc[i + 2], delay))
  {
    var p := Prelude(s, inp);
    var c := ChannelPass(p, ClearButton(inp.pinb), inp.adc);
    var gates := Gates(c.channels, inp.adc, p.delay, p.cyclesSinceLastTick, p.count);
    GatePortBits(p.portb, gates, |gates|);
    assert Bit(c.portb, InitialChannel(i).outPortbIndex) == gates[i];
    assert StepSpec(s, inp).portb == c.portb && StepSpec(s, inp).channels == c.channels;
  }

  /** PORTB bits 0 and 5..7, which are not gate outputs, are never written. */
  lemma StepGateFrame(s: State, inp: Inputs, b: nat)
    requires Valid(s) && ValidInputs(inp) && b < 8 && (b == 0 || 4 < b)
    ensures Bit(StepSpec(s, inp).portb, b) == Bit(s.portb, b)
  {
    var p := Prelude(s, inp);
    var c := ChannelPass(p, ClearButton(inp.pinb), inp.adc);
    var gates := Gates(c.channels, inp.adc, p.delay, p.cyclesSinceLastTick, p.count);
    GatePortBits(p.portb, gates, |gates|);
    assert StepSpec(s, inp).portb == c.portb;
  }

  /** The tick: once it has lasted the (possibly just re-read) tick length
      the step advances, wrapping to 0 at the step count, and the tick
      restarts; otherwise only the tick grows. */
  lemma StepTick(s: State, inp: Inputs)
    requires Valid(s) && ValidInputs(inp)
    ensures var t := StepSpec(s, inp);
      var n := NumSteps(inp.adc[STEPS_ADC]);
      var delay := ReloadDelay(s.globalCount, s.delay, inp.adc[TEMPO_ADC]);
      (s.cyclesSinceLastTick >= delay ==>
         t.cyclesSinceLastTick == 0 && t.count < n &&
         t.count == (if s.count + 1 >= n then 0 else s.count + 1)) &&
      (s.cyclesSinceLastTick < delay ==>
         t.cyclesSinceLastTick == s.cyclesSinceLastTick + 1 && t.count == s.count)
  {
  }

  /** The LED byte written in an iteration leaves PORTD bits 5..7 alone. */
  lemma StepLedFrame(s: State, inp: Inputs)
    requires Valid(s) && ValidInputs(inp)
    ensures StepSpec(s, inp).portd & !COUNT_MASK == s.portd & !COUNT_MASK
  {
  }

  /** A button held across two iterations, with clear released, sets a step
      of a channel without fill only on the first of them. */
  lemma HeldButtonRecordsOnce(s: State, inp1: Inputs, inp2: Inputs, i: nat)
    requires Valid(s) && ValidInputs(inp1) && ValidInputs(inp2)
    requires 0 < i < NUM_CHANNELS
    requires Buttons(inp1.pind, inp1.pinb)[i] && Buttons(inp2.pind, inp2.pinb)[i]
    requires !ClearButton(inp2.pinb)
    ensures StepSpec(StepSpec(s, inp1), inp2).channels[i].sequence == StepSpec(s, inp1).channels[i].sequence
  {
    StepRecording(s, inp1, i);
    StepRecording(StepSpec(s, inp1), inp2, i);
  }

  /** Appending one more iteration to a run. */
  lemma IterateSnoc(s: State, ins: seq<Inputs>, inp: Inputs)
    requires Valid(s) && AllValid(ins) && ValidInputs(inp)
    ensures AllValid(ins + [inp])
    ensures Iterate(s, ins + [inp]) == StepSpec(Iterate(s, ins), inp)
  {
    assert (ins + [inp])[..|ins|] == ins;
  }

  /** The last iteration of a non-empty run. */
  lemma IterateLast(s: State, ins: seq<Inputs>)
    requires Valid(s) && AllValid(ins) && ins != []
    ensures AllValid(ins[..|ins| - 1])
    ensures Iterate(s, ins) == StepSpec(Iterate(s, ins[..|ins| - 1]), ins[|ins| - 1])
  {
  }

  /** The wrap-around increment is addition modulo 2^32. */
  lemma Uint32IncIsMod(g: nat)
    requires g < UINT32_MODULUS
    ensures Uint32Inc(g) == (g + 1) % UINT32_MODULUS
  {
    if g + 1 == UINT32_MODULUS {
      ModUnique(g + 1, 1, 0, UINT32_MODULUS);
    } else {
      ModUnique(g + 1, 0, g + 1, UINT32_MODULUS);
    }
  }

  /** `global_count` after n increments starting from g. */
  function CountFrom(g: nat, n: nat): (r: nat)
    requires g < UINT32_MODULUS
    ensures r < UINT32_MODULUS
    decreases n
  {
    if n == 0 then g else Uint32Inc(CountFrom(g, n - 1))
  }

  /** n wrap-around increments add n modulo 2^32. */
  lemma {:induction false} CountFromIsMod(g: nat, n: nat)
    requires g < UINT32_MODULUS
    ensures CountFrom(g, n) == (g + n) % UINT32_MODULUS
    decreases n
  {
    if n == 0 {
      ModUnique(g, 0, g, UINT32_MODULUS);
    } else {
      CountFromIsMod(g, n - 1);
      CountStep(g + n - 1, g + n, CountFrom(g, n - 1), CountFrom(g, n));
    }
  }

  /** One more wrap-around increment, as plain arithmetic. */
  lemma CountStep(a: nat, b: nat, x: nat, y: nat)
    requires b == a + 1 && x == a % UINT32_MODULUS
    requires x < UINT32_MODULUS && y == Uint32Inc(x)
    ensures y == b % UINT32_MODULUS
  {
    Uint32IncIsMod(x);
    ModSucc(a, b);
  }

  /** Counting modulo 2^32 one step at a time counts modulo 2^32. */
  lemma ModSucc(a: nat, b: nat)
    requires b == a + 1
    ensures ((a % UINT32_MODULUS) + 1) % UINT32_MODULUS == b % UINT32_MODULUS
  {
    var r := a % UINT32_MODULUS;
    assert a == (a / UINT32_MODULUS) * UINT32_MODULUS + r;
    if r + 1 < UINT32_MODULUS {
      ModUnique(b, a / UINT32_MODULUS, r + 1, UINT32_MODULUS);
    } else {
      ModUnique(b, a / UINT32_MODULUS + 1, 0, UINT32_MODULUS);
    }
  }

  /** The remainder is the only one: b = q * m + r with 0 <= r < m. */
  lemma ModUnique(b: nat, q: int, r: int, m: nat)
    requires m == UINT32_MODULUS || m == DELAY_RELOAD_PERIOD
    requires 0 <= r < m && b == q * m + r
    ensures b % m == r
  {
    if m == UINT32_MODULUS {
      assert b == q * UINT32_MODULUS + r;
    } else {
      assert b == q * DELAY_RELOAD_PERIOD + r;
    }
  }

  /** `global_count` after a run has been incremented once per iteration. */
  lemma {:induction false} IterateGlobalCount(s: State, ins: seq<Inputs>)
    requires Valid(s) && AllValid(ins)
    ensures Iterate(s, ins).globalCount == CountFrom(s.globalCount, |ins|)
    decreases |ins|
  {
    if ins != [] {
      var prefix := ins[..|ins| - 1];
      IterateGlobalCount(s, prefix);
      IterateGlobalCountStep(s, ins);
    }
  }

  lemma IterateGlobalCountStep(s: State, ins: seq<Inputs>)
    requires Valid(s) && AllValid(ins) && ins != []
    requires Iterate(s, ins[..|ins| - 1]).globalCount == CountFrom(s.globalCount, |ins| - 1)
    ensures Iterate(s, ins).globalCount == CountFrom(s.globalCount, |ins|)
  {
    IterateLast(s, ins);
    StepCounters(Iterate(s, ins[..|ins| - 1]), ins[|ins| - 1]);
  }

  /** 512 divides 2^32, so the wrap of `global_count` keeps the schedule:
      after k increments from 0 a re-read is due exactly when 512 divides k. */
  lemma ReloadDueAfter(k: nat)
    ensures CountFrom(0, k) % DELAY_RELOAD_PERIOD == 0 <==> k % DELAY_RELOAD_PERIOD == 0
  {
    CountFromIsMod(0, k);
    var q, r := k / UINT32_MODULUS, k % UINT32_MODULUS;
    assert k == q * UINT32_MODULUS + r;
    var p, e := r / DELAY_RELOAD_PERIOD, r % DELAY_RELOAD_PERIOD;
    assert r == p * DELAY_RELOAD_PERIOD + e;
    assert k == (q * 8388608 + p) * DELAY_RELOAD_PERIOD + e;
    ModUnique(k, q * 8388608 + p, e, DELAY_RELOAD_PERIOD);
  }

  /** From power-on the tempo knob is read on iterations 0, 512, 1024, ...
      (counted from 0), for ever, and the tick length holds in between. */
  lemma DelayReloadSchedule(tempoAdc: int, stepsAdc: int, portb: bv8, portd: bv8, ins: seq<Inputs>, k: nat)
    requires IsReading(tempoAdc) && IsReading(stepsAdc) && AllValid(ins) && k < |ins|
    ensures var s0 := Initial(tempoAdc, stepsAdc, portb, portd);
      AllValid(ins[..k]) && AllValid(ins[..k + 1]) &&
      (k % DELAY_RELOAD_PERIOD == 0 ==> Iterate(s0, ins[..k + 1]).delay == Delay(ins[k].adc[TEMPO_ADC])) &&
      (k % DELAY_RELOAD_PERIOD != 0 ==> Iterate(s0, ins[..k + 1]).delay == Iterate(s0, ins[..k]).delay)
  {
    var s0 := Initial(tempoAdc, stepsAdc, portb, portd);
    assert ins[..k + 1] == ins[..k] + [ins[k]];
    IterateSnoc(s0, ins[..k], ins[k]);
    IterateGlobalCount(s0, ins[..k]);
    ReloadDueAfter(k);
    StepCounters(Iterate(s0, ins[..k]), ins[k]);
  }

  /** A run during which the step-count knob selects `n` throughout. */
  predicate SteadySteps(ins: seq<Inputs>, n: nat)
    requires AllValid(ins)
  {
    forall j :: 0 <= j < |ins| ==> NumSteps(ins[j].adc[STEPS_ADC]) == n
  }

  /** After a change to `n`, the countdown runs 1999, 1998, ..., 0 over the
      next 2000 iterations and stays 0 while the knob is not moved. */
  lemma {:induction false} CountdownAfterChange(s: State, ins: seq<Inputs>, n: nat)
    requires Valid(s) && AllValid(ins) && 1 <= |ins| && SteadySteps(ins, n)
    requires s.prevNumSteps != n
    ensures Iterate(s, ins).prevNumSteps == n
    ensures Iterate(s, ins).numStepsDisplayCountdown ==
              if |ins| <= NUM_STEPS_DISPLAY_DELAY then NUM_STEPS_DISPLAY_DELAY - |ins| else 0
    decreases |ins|
  {
    var prefix := ins[..|ins| - 1];
    var last := ins[|ins| - 1];
    if |ins| == 1 {
      StepDisplay(s, last);
    } else {
      CountdownAfterChange(s, prefix, n);
      StepDisplay(Iterate(s, prefix), last);
    }
  }

  /** Hence, after a change to `n`, the LEDs show `n` on each of the next
      2000 iterations, and from the 2001st on they show the step index. */
  lemma StepsShownAfterChange(s: State, ins: seq<Inputs>, n: nat)
    requires Valid(s) && AllValid(ins) && 1 <= |ins| && SteadySteps(ins, n)
    requires s.prevNumSteps != n
    ensures var t := Iterate(s, ins);
      (|ins| <= NUM_STEPS_DISPLAY_DELAY ==> Shows(t.portd, n)) &&
      (|ins| > NUM_STEPS_DISPLAY_DELAY ==> Shows(t.portd, t.count))
  {
    var last := ins[|ins| - 1];
    IterateLast(s, ins);
    BeforeLastIteration(s, ins, n);
    assert NumSteps(last.adc[STEPS_ADC]) == n;
    StepShows(Iterate(s, ins[..|ins| - 1]), last);
  }

  /** The display state going into the last iteration of such a run. */
  lemma BeforeLastIteration(s: State, ins: seq<Inputs>, n: nat)
    requires Valid(s) && AllValid(ins) && 1 <= |ins| && SteadySteps(ins, n)
    requires s.prevNumSteps != n
    ensures AllValid(ins[..|ins| - 1])
    ensures var u := Iterate(s, ins[..|ins| - 1]);
      (|ins| == 1 ==> u.prevNumSteps != n) &&
      (1 < |ins| ==>
         (u.prevNumSteps == n &&
          u.numStepsDisplayCountdown ==
            if |ins| - 1 <= NUM_STEPS_DISPLAY_DELAY then NUM_STEPS_DISPLAY_DELAY - (|ins| - 1) else 0))
  {
    var prefix := ins[..|ins| - 1];
    if |ins| == 1 {
      assert prefix == [];
    } else {
      CountdownAfterChange(s, prefix, n);
    }
  }

  /** The display: a new step count restarts the countdown and is shown;
      while the countdown runs the step count stays on the LEDs; after it the
      LEDs show the step index (the one after this iteration's tick). */
  lemma StepDisplay(s: State, inp: Inputs)
    requires Valid(s) && ValidInputs(inp)
    ensures var n := NumSteps(inp.adc[STEPS_ADC]); var t := StepSpec(s, inp);
      t.prevNumSteps == n &&
      (s.prevNumSteps != n ==> t.numStepsDisplayCountdown == NUM_STEPS_DISPLAY_DELAY - 1) &&
      (s.prevNumSteps == n && s.numStepsDisplayCountdown > 0 ==>
         t.numStepsDisplayCountdown == s.numStepsDisplayCountdown - 1) &&
      (s.prevNumSteps != n || s.numStepsDisplayCountdown > 0 ==> t.portd == LedPort(s.portd, Byte(n))) &&
      (s.prevNumSteps == n && s.numStepsDisplayCountdown == 0 ==>
         t.numStepsDisplayCountdown == 0 && t.portd == LedPort(s.portd, Byte(t.count)))
  {
  }

  /** What the LEDs display after one iteration: the step count while it is
      new or its countdown runs, the step index otherwise. */
  lemma StepShows(s: State, inp: Inputs)
    requires Valid(s) && ValidInputs(inp)
    ensures var n := NumSteps(inp.adc[STEPS_ADC]); var t := StepSpec(s, inp);
      (s.prevNumSteps != n || s.numStepsDisplayCountdown > 0 ==> Shows(t.portd, n)) &&
      (s.prevNumSteps == n && s.numStepsDisplayCountdown == 0 ==> Shows(t.portd, t.count))
  {
    StepDisplay(s, inp);
  }
}
