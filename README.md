# Pattern sequencer firmware, modelled in Dafny

The pattern sequencer is a four-channel, up-to-32-step gate sequencer running
on an AVR microcontroller. Its firmware (`pattern-sequencer/arduino/src/main.c`)
is a single `while (1)` loop. Each pass of the loop does the following:

- re-reads the tempo knob every 512 passes;
- latches the four channel buttons (active low);
- for each channel, records or clears the current step (clear wins; the fill
  channel records while held, the others only on the press) and remembers
  the button state;
- drives the channel's gate on PORTB while the tick is inside the width
  that channel's knob selects;
- notices a change of the step-count knob;
- advances the step index once the tick has lasted `delay` passes;
- shows on five LEDs (PORTD bits 0..4, wired in reverse order) either the
  new step count, for 2000 passes, or the step index. Only the five low bits
  reach the LEDs, so a step count of 32 (knob readings 3968..4095) shows as
  all LEDs off, the same pattern as 0.

The model has three layers:

- **Ports, Leds, Knobs, Channels.** The registers as `bv8`, the LED
  encoding, the knob conversions and the channel record (`channel_t`), with
  their record and gate rules.
- **Machine.** The loop state as a `State` value. One pass of the loop is
  the function `StepSpec`, split into the firmware's three phases: `Prelude`
  (lines 108-118), `ChannelPass` (120-137) and `Finish` (139-158). A run of
  passes is `Iterate`.
- **Loop.Sequencer.** A class whose fields are the loop's variables and
  whose `channels` field is an array updated in place. `Step` runs the loop
  body statement by statement, through phase methods that mirror the source,
  and is proved to produce exactly `StepSpec`. `Run` executes a bounded number
  of passes and is proved to produce `Iterate`.

`Behaviour` lifts the per-phase facts to whole passes and to runs of passes.

The widths of the C types are kept where they matter:

- `global_count` is a `uint32_t` and wraps (`Uint32Inc`). Because 512 divides
  2^32, the re-read schedule survives the wrap.
- `count` and `num_steps` are `uint8_t`; their values stay below 33, so the
  conversion to a byte for the LEDs is exact.
- The threshold product `reading * delay` is at most 4095 * 4224, so it fits
  in a `uint32_t`.

Two statements are restructured without changing what they do:

- The body of the channel loop is a method of its own, `ProcessChannel`.
- Its gate write calls `WriteBit`, whose body is the firmware's set-or-clear
  of `BIT(out_portb_index)`.

`get_num_steps` shifts the reading right by 7; the model divides by 128,
which gives the same result for every reading 0..4095.

The tick length lies in 129..4224 inclusive: a reading of 0 gives 4224 and
a reading of 4095 gives 129. The LED mapping sends value bit i to PORTD bit
4 - i, a 5-bit reversal.

PINB is read twice in a pass and PIND three times, yet the model takes one
value of each per pass, and this is exact. The clear read (line 46, from line
108) looks only at PINB bit 5, and channel 3's read (line 118) only at PINB
bit 0. The three PIND reads (lines 115-117) look at bits 5, 6 and 7. One value
with each bit taken from the read that looks at it reproduces every read.

## Model

| member | source | states |
|---|---|---|
| `Ports.MaskIsShift` | pattern-sequencer/arduino/src/main.c:10 | the mask table used for `BIT(b)` equals `1 << b` for every bit 0..7 |
| `Ports.Mask` | pattern-sequencer/arduino/src/main.c:10 | `BIT(b)` has exactly one bit set |
| `Ports.WriteBit` | pattern-sequencer/arduino/src/main.c:132-136 | `PORTB \|= BIT(b)` or `PORTB &= ~BIT(b)` leaves bit b equal to the value written and the other seven bits as they were |
| `Ports.WriteBitKeeps` | pattern-sequencer/arduino/src/main.c:132-136 | the same write leaves every other bit of the register unchanged |
| `Leds.CountBits` | pattern-sequencer/arduino/src/main.c:25-30 | `count_bits` moves value bit i to bit 4 - i and has no bit set outside `COUNT_MASK` |
| `Leds.CountBitsInvolutive` | pattern-sequencer/arduino/src/main.c:25-30 | applying the encoding twice gives back the five low bits of the value |
| `Leds.CountBitsIgnoresHighBits` | pattern-sequencer/arduino/src/main.c:25-30 | value bits above bit 4 never reach the LEDs |
| `Leds.CountBitsInjective` | pattern-sequencer/arduino/src/main.c:25-30 | two values below 32 give the same LED pattern iff they are equal |
| `Leds.ThirtyTwoShowsAsZero` | pattern-sequencer/arduino/src/main.c:25-32 | a step count of 32 lights no LED, so it cannot be told apart from 0 |
| `Leds.LedPort` | pattern-sequencer/arduino/src/main.c:31-32 | after the write, PORTD bits 0..4 hold `count_bits` and bits 5..7 are as before |
| `Knobs.Delay` | pattern-sequencer/arduino/src/main.c:35-38 | `get_delay` lies in 129..4224; it is 4224 exactly for a reading of 0 and 129 exactly for 4095 |
| `Knobs.DelayStrictlyDecreasing` | pattern-sequencer/arduino/src/main.c:37 | each unit more on the tempo knob makes the tick one pass shorter |
| `Knobs.NumSteps` | pattern-sequencer/arduino/src/main.c:40-43 | `get_num_steps` lies in 1..32 and selects n steps exactly for readings in band `[(n-1)*128, n*128)` |
| `Knobs.NumStepsMonotonic` | pattern-sequencer/arduino/src/main.c:42 | a larger reading never selects fewer steps |
| `Knobs.Threshold` | pattern-sequencer/arduino/src/main.c:130-131 | the gate width lies in 1..delay; it is `floor(reading * delay / 4096)` when that is positive and 1 otherwise |
| `Knobs.ClearButton` | pattern-sequencer/arduino/src/main.c:45-47 | `get_clear_button` holds iff PINB bit 5 reads 0, and no other PINB bit matters |
| `Channels.NoSteps` | pattern-sequencer/arduino/src/main.c:59 | `.sequence = { 0 }` is 32 entries, all false |
| `Channels.InitialChannel` | pattern-sequencer/arduino/src/main.c:55-88 | channel i reads ADC input i + 2, drives PORTB bit 4 - i, fills iff i == 0, and starts released and empty |
| `Channels.Record` | pattern-sequencer/arduino/src/main.c:122-129 | one channel's pass through the record rule changes only its current step and `pressedPrev`, which becomes `pressedNow`; its wiring is kept |
| `Channels.RecordRule` | pattern-sequencer/arduino/src/main.c:122-127 | the record rule (`Record`) on the current step: if pressed with clear held, it is erased; if pressed and (fill or a new press), it is set; otherwise the step memory is unchanged |
| `Channels.HeldWithoutFillIsStable` | pattern-sequencer/arduino/src/main.c:122-129 | a channel without fill whose button stays held, clear released, is left exactly as it was |
| `Channels.GatePortBits` | pattern-sequencer/arduino/src/main.c:120-137 | after the channel loop (`GatePort`), channel k's PORTB bit carries its gate and the PORTB bits that drive no channel are unchanged |
| `Machine.Initial` | pattern-sequencer/arduino/src/main.c:55-106 | the state entering the loop: the invariant holds; each channel is as initialised, released and empty; step 0, no tick elapsed, countdown and `global_count` 0; `delay` and `prev_num_steps` read once from the knobs; PORTB and PORTD as found |
| `Machine.Buttons` | pattern-sequencer/arduino/src/main.c:115-118 | the four buttons are PIND bits 5, 6, 7 and PINB bit 0, each active low |
| `Machine.Latch` | pattern-sequencer/arduino/src/main.c:115-118 | latching the buttons keeps every channel's wiring |
| `Machine.LatchSetsButtons` | pattern-sequencer/arduino/src/main.c:115-118 | the latch sets `pressed_now` to the button state and changes nothing else of the channel |
| `Machine.RecordEach` | pattern-sequencer/arduino/src/main.c:120-129 | the record rule applied to every channel keeps every channel's wiring |
| `Machine.RecordEachRule` | pattern-sequencer/arduino/src/main.c:120-129 | after the channel loop, every channel has `pressed_prev == pressed_now`, only step `count` of its memory can differ, and a released channel keeps its memory |
| `Machine.ChannelGate` | pattern-sequencer/arduino/src/main.c:130-132 | a channel's gate is high only for a set step, always on the first pass of a tick (the width is at least 1), and never once the tick has lasted `delay` passes (the width is at most `delay`) |
| `Machine.Gates` | pattern-sequencer/arduino/src/main.c:120-137 | the same for the four gates together: on the first pass of a tick they equal the channels' current steps, and once the tick has lasted `delay` passes they are all low |
| `Machine.ReloadDelay` | pattern-sequencer/arduino/src/main.c:110-112 | the tick length stays in 129..4224, and is kept unless `global_count % 512 == 0` |
| `Machine.Tick` | pattern-sequencer/arduino/src/main.c:144-152 | at a tick the step advances modulo the step count (or restarts at 0 if it was already past it) and the tick restarts; otherwise only the tick grows |
| `Machine.Uint32Inc` | pattern-sequencer/arduino/src/main.c:106-113 | `global_count++` on a `uint32_t` stays below 2^32 |
| `Machine.Prelude` | pattern-sequencer/arduino/src/main.c:108-118 | the first phase of a pass preserves the loop invariant |
| `Machine.ChannelPass` | pattern-sequencer/arduino/src/main.c:120-137 | the channel loop preserves the loop invariant |
| `Machine.Finish` | pattern-sequencer/arduino/src/main.c:139-158 | the tick and display phase preserves the loop invariant (step index < 32, tick at most 4224, countdown at most 2000) |
| `Machine.StepSpec` | pattern-sequencer/arduino/src/main.c:107-158 | one pass preserves the invariant, so `sequence[count]` is always in bounds |
| `Machine.Iterate` | pattern-sequencer/arduino/src/main.c:107-159 | any number of passes preserves the invariant |
| `Loop.Sequencer.constructor` | pattern-sequencer/arduino/src/main.c:55-106 | the declarations before the loop build exactly `Initial` |
| `Loop.Sequencer.SetCountLeds` | pattern-sequencer/arduino/src/main.c:24-33 | `set_count_leds` leaves PORTD equal to `LedPort` of its old value |
| `Loop.Sequencer.Step` | pattern-sequencer/arduino/src/main.c:107-158 | one pass of the loop body, on the fields and the channel array in place, yields exactly `StepSpec` and keeps the invariant |
| `Loop.Sequencer.BeginIteration` | pattern-sequencer/arduino/src/main.c:108-118 | the tempo re-read, `global_count++` and the latch yield exactly `Prelude` |
| `Loop.Sequencer.LatchButtons` | pattern-sequencer/arduino/src/main.c:115-118 | the four `pressed_now` assignments yield exactly `Latch` |
| `Loop.Sequencer.ProcessChannels` | pattern-sequencer/arduino/src/main.c:120-137 | the `for` loop over the channels yields exactly `ChannelPass` |
| `Loop.Sequencer.ProcessChannel` | pattern-sequencer/arduino/src/main.c:121-136 | one pass of the channel loop changes only channel i, by `Record`, and writes only channel i's gate bit |
| `Loop.Sequencer.EndIteration` | pattern-sequencer/arduino/src/main.c:139-158 | change detection, tick and LED selection yield exactly `Finish` |
| `Loop.Sequencer.Run` | pattern-sequencer/arduino/src/main.c:107-159 | a bounded stretch of the endless loop yields exactly `Iterate` |
| `Behaviour.StepCounters` | pattern-sequencer/arduino/src/main.c:110-113 | in a pass the tick length is re-read iff `global_count % 512 == 0` and kept otherwise; `global_count` is incremented with uint32 wrap |
| `Behaviour.StepRecording` | pattern-sequencer/arduino/src/main.c:115-129 | per channel over a whole pass: the button is latched; clear erases; a press (or a hold on the fill channel) sets the step; otherwise the sequence is unchanged; `pressed_prev == pressed_now` afterwards |
| `Behaviour.StepGate` | pattern-sequencer/arduino/src/main.c:130-136 | after a pass, PORTB bit 4 - i is high iff channel i's current step is set and the pre-tick cycle count is below its threshold |
| `Behaviour.StepGateFrame` | pattern-sequencer/arduino/src/main.c:132-136 | PORTB bits 0 and 5..7 are never changed by a pass |
| `Behaviour.StepTick` | pattern-sequencer/arduino/src/main.c:144-152 | once the tick has lasted the tick length, the step advances and wraps to 0 at the step count, so it is below the step count, and the tick restarts; otherwise the step stays and the tick grows by one |
| `Behaviour.StepLedFrame` | pattern-sequencer/arduino/src/main.c:153-158 | a pass never changes PORTD bits 5..7 |
| `Behaviour.HeldButtonRecordsOnce` | pattern-sequencer/arduino/src/main.c:122-129 | a channel without fill, held across two passes with clear released, records only on the first |
| `Behaviour.Uint32IncIsMod` | pattern-sequencer/arduino/src/main.c:113 | the wrap-around increment is +1 modulo 2^32 |
| `Behaviour.CountFromIsMod` | pattern-sequencer/arduino/src/main.c:113 | n increments from g give (g + n) modulo 2^32 |
| `Behaviour.IterateGlobalCount` | pattern-sequencer/arduino/src/main.c:106-113 | after a run, `global_count` has been incremented once per pass |
| `Behaviour.ReloadDueAfter` | pattern-sequencer/arduino/src/main.c:106-113 | after k passes from power-on a re-read is due iff 512 divides k, through the 2^32 wrap |
| `Behaviour.DelayReloadSchedule` | pattern-sequencer/arduino/src/main.c:105-113 | from power-on, pass k (from 0) re-reads the tempo knob iff k is a multiple of 512, the first pass included, and the tick length is unchanged by every other pass |
| `Behaviour.StepDisplay` | pattern-sequencer/arduino/src/main.c:139-158 | a new step count restarts the countdown at 2000 and is shown; a running countdown drops by one and the step count stays shown; otherwise the step index after the tick is shown |
| `Behaviour.StepShows` | pattern-sequencer/arduino/src/main.c:153-158 | the LEDs after a pass show (the five low bits of) the step count while it is new or counting down, and the step index otherwise |
| `Behaviour.CountdownAfterChange` | pattern-sequencer/arduino/src/main.c:139-154 | after a change of the step count, with the knob then steady, the countdown reads 2000 - j after j passes up to 2000 and 0 after that |
| `Behaviour.StepsShownAfterChange` | pattern-sequencer/arduino/src/main.c:139-158 | after a change of the step count, with the knob then steady, the LEDs show it (its five low bits, so 32 as all off) for exactly the next 2000 passes and show the step index from the 2001st on |

## Left out

- The UART driver (`uart_bitbanged.c`, `uart_bitbanged.h`) and its
  initialisation (line 53): busy-wait serial output, hardware I/O only.
- `ADC_init` (line 52) and the pin-direction and pull-up set-up (lines
  92-99): register configuration. The model starts from whatever PORTB and
  PORTD hold when the loop is entered (constructor parameters).
- `ADC_read` and the headers `util.h`, `adc.h` and `timer.h` are not part of
  this model. The reading of each ADC input during a pass is a parameter,
  required to lie in 0..4095. Each input is read at most once per pass, so one
  reading per input per pass is exact. PINB and PIND are parameters too.
- The endless `while (1)`: the model has single passes and bounded runs
  (`Run`, `Iterate`) rather than non-termination. Time is counted only in loop
  passes; the duration of a pass is not modelled.
