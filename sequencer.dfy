/**
 * The firmware's `main`: the loop variables and the channel array as the
 * fields of one object, updated in place by each pass of the loop.
 */
module Loop {
  import opened Ports
  import opened Leds
  import opened Knobs
  import opened Channels
  import opened Machine

  class Sequencer {
    const channels: array<Channel>
    var count: nat
    var cyclesSinceLastTick: nat
    var delay: nat
    var prevNumSteps: nat
    var numStepsDisplayCountdown: nat
    var globalCount: nat
    /** The output registers: gates on PORTB bits 1..4, LEDs on PORTD bits 0..4. */
    var portb: bv8
    var portd: bv8

    /** The value of all the loop's variables. */
    function Snapshot(): State
      reads this, channels
    {
      State(channels[..], count, cyclesSinceLastTick, delay, prevNumSteps,
            numStepsDisplayCountdown, globalCount, portb, portd)
    }

    ghost predicate Valid()
      reads this, channels
    {
      Machine.Valid(Snapshot())
    }

    /** The declarations before the loop. The pin set-up and the pull-ups
        are not modelled, so the registers start at whatever they hold. */
    constructor (tempoAdc: int, stepsAdc: int, portb0: bv8, portd0: bv8)
      requires IsReading(tempoAdc) && IsReading(stepsAdc)
      ensures Valid() && fresh(channels)
      ensures Snapshot() == Initial(tempoAdc, stepsAdc, portb0, portd0)
    {
      channels := new Channel[NUM_CHANNELS] [InitialChannel(0), InitialChannel(1), InitialChannel(2), InitialChannel(3)];
      count := 0;
      cyclesSinceLastTick := 0;
      prevNumSteps := NumSteps(stepsAdc);
      numStepsDisplayCountdown := 0;
      delay := Delay(tempoAdc);
      globalCount := 0;
      portb, portd := portb0, portd0;
    }

    /** set_count_leds. */
    method SetCountLeds(value: bv8)
      modifies this`portd
      ensures portd == LedPort(old(portd), value)
    {
      var countBits :=
        ((value & 0x01) << 4) |
        ((value & 0x02) << 2) |
        (value & 0x04) |
        ((value & 0x08) >> 2) |
        ((value & 0x10) >> 4);
      portd := portd & !COUNT_MASK;
      portd := portd | countBits;
    }

    /** One pass of the loop body (lines 108-158). */
    method Step(pind: bv8, pinb: bv8, adc: seq<int>)
      requires Valid() && ValidInputs(Inputs(pind, pinb, adc))
      modifies this, channels
      ensures Valid()
      ensures Snapshot() == StepSpec(old(Snapshot()), Inputs(pind, pinb, adc))
    {
      var clear := ClearButton(pinb);
      BeginIteration(pind, pinb, adc);
      ProcessChannels(clear, adc);
      var numSteps := NumSteps(adc[STEPS_ADC]);
      EndIteration(numSteps);
    }

    /** Lines 110-118: re-read the tempo knob when due, count the
        iteration, latch the four buttons. */
    method BeginIteration(pind: bv8, pinb: bv8, adc: seq<int>)
      requires Valid() && ValidInputs(Inputs(pind, pinb, adc))
      modifies this`delay, this`globalCount, channels
      ensures Snapshot() == Prelude(old(Snapshot()), Inputs(pind, pinb, adc))
    {
      if globalCount % DELAY_RELOAD_PERIOD == 0 {
        delay := Delay(adc[TEMPO_ADC]);
      }
      globalCount := Uint32Inc(globalCount);

      LatchButtons(pind, pinb);
    }

    /** Lines 115-118: every channel latches its button, active low. */
    method LatchButtons(pind: bv8, pinb: bv8)
      requires channels.Length == NUM_CHANNELS && WiredAll(channels[..])
      modifies channels
      ensures channels[..] == Latch(old(channels[..]), Buttons(pind, pinb))
    {
      channels[0] := channels[0].(pressedNow := PinLow(pind, 5));
      channels[1] := channels[1].(pressedNow := PinLow(pind, 6));
      channels[2] := channels[2].(pressedNow := PinLow(pind, 7));
      channels[3] := channels[3].(pressedNow := PinLow(pinb, 0));

      ghost var latched := Latch(old(channels[..]), Buttons(pind, pinb));
      forall k | 0 <= k < NUM_CHANNELS
        ensures channels[k] == latched[k]
      {
        if k == 0 {} else if k == 1 {} else if k == 2 {} else {}
      }
      assert channels[..] == latched;
    }

    /** Lines 120-137, the loop over the channels: record or clear the
        current step, remember the button state, drive the gate. */
    method ProcessChannels(clear: bool, adc: seq<int>)
      requires Valid() && ValidInputs(Inputs(0, 0, adc))
      modifies channels, this`portb
      ensures Snapshot() == ChannelPass(old(Snapshot()), clear, adc)
    {
      ghost var recorded := RecordEach(channels[..], clear, count);
      ghost var gates := Gates(recorded, adc, delay, cyclesSinceLastTick, count);
      ghost var portb0 := portb;
      ghost var latched := channels[..];
      for i := 0 to NUM_CHANNELS
        invariant channels[..] == RecordPrefix(latched, clear, count, i)
        invariant portb == GatePort(portb0, gates, i)
      {
        RecordPrefixSteps(latched, clear, count, i);
        GatesAt(latched, clear, adc, delay, cyclesSinceLastTick, count, i);
        ProcessChannel(i, clear, adc);
      }
      RecordPrefixSteps(latched, clear, count, 0);
    }

    /** One pass of the channel loop, for channel i (lines 121-136). */
    method ProcessChannel(i: nat, clear: bool, adc: seq<int>)
      requires i < channels.Length == NUM_CHANNELS && Wired(channels[i], i) && ValidInputs(Inputs(0, 0, adc))
      requires 1 <= delay <= MAX_DELAY && count < MAX_NUM_STEPS
      modifies channels, this`portb
      ensures channels[..] == old(channels[..])[i := Record(old(channels[i]), clear, count)]
      ensures Wired(channels[i], i)
      ensures portb == WriteBit(old(portb), InitialChannel(i).outPortbIndex,
                                ChannelGate(channels[i], i, adc, delay, cyclesSinceLastTick, count))
    {
      var ch := channels[i];
      if ch.pressedNow {
        if clear {
          ch := ch.(sequence := ch.sequence[count := false]);
        } else if ch.allowFill || !ch.pressedPrev {
          ch := ch.(sequence := ch.sequence[count := true]);
        }
      }
      ch := ch.(pressedPrev := ch.pressedNow);
      channels[i] := ch;
      var threshold := (adc[ch.adcIndex] * delay) / ADC_FULL_SCALE;
      threshold := if threshold == 0 then 1 else threshold;
      assert threshold == Threshold(adc[ch.adcIndex], delay);
      var gate := ch.sequence[count] && cyclesSinceLastTick < threshold;
      portb := WriteBit(portb, ch.outPortbIndex, gate);
    }

    /** Lines 140-158: note a change of the step count, decide the tick,
        and show the step count or the step index on the LEDs. */
    method EndIteration(numSteps: nat)
      requires Valid() && 1 <= numSteps <= MAX_NUM_STEPS
      modifies this`prevNumSteps, this`numStepsDisplayCountdown, this`count,
               this`cyclesSinceLastTick, this`portd
      ensures Snapshot() == Finish(old(Snapshot()), numSteps)
    {
      if prevNumSteps != numSteps {
        prevNumSteps := numSteps;
        numStepsDisplayCountdown := NUM_STEPS_DISPLAY_DELAY;
      }
      if cyclesSinceLastTick >= delay {
        count := count + 1;
        if count >= numSteps {
          count := 0;
        }
        cyclesSinceLastTick := 0;
      } else {
        cyclesSinceLastTick := cyclesSinceLastTick + 1;
      }
      if numStepsDisplayCountdown > 0 {
        numStepsDisplayCountdown := numStepsDisplayCountdown - 1;
        SetCountLeds(Byte(numSteps));
      } else {
        SetCountLeds(Byte(count));
      }
    }

    /** A bounded stretch of the `while (1)` loop: one pass per element of
        `ins`. */
    method Run(ins: seq<Inputs>)
      requires Valid() && AllValid(ins)
      modifies this, channels
      ensures Valid()
      ensures Snapshot() == Iterate(old(Snapshot()), ins)
    {
      for j := 0 to |ins|
        invariant Snapshot() == Iterate(old(Snapshot()), ins[..j])
      {
        assert ins[..j + 1][..j] == ins[..j];
        Step(ins[j].pind, ins[j].pinb, ins[j].adc);
      }
      assert ins[..|ins|] == ins;
    }
  }
}
