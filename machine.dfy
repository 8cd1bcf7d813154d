/**
 * One iteration of the firmware's control loop as a function of the
 * sequencer state and of what the hardware reads return during it.
 */
module Machine {
  import opened Ports
  import opened Leds
  import opened Knobs
  import opened Channels

  /** ADC inputs: the tempo knob, the step-count knob, then the four
      gate-width knobs (inputs 2..5). */
  const TEMPO_ADC := 0
  const STEPS_ADC := 1
  const NUM_ADC_INPUTS := 6

  /** NUM_STEPS_DISPLAY_DELAY: iterations the LEDs show a new step count. */
  const NUM_STEPS_DISPLAY_DELAY := 2000

  /** The tempo knob is re-read once every this many iterations. */
  const DELAY_RELOAD_PERIOD := 512

  /** `global_count` is a uint32_t and wraps around. */
  const UINT32_MODULUS := 0x1_0000_0000

  /** The loop's variables and the two output registers it writes. */
  datatype State = State(
    channels: seq<Channel>,
    count: nat,
    cyclesSinceLastTick: nat,
    delay: nat,
    prevNumSteps: nat,
    numStepsDisplayCountdown: nat,
    globalCount: nat,
    portb: bv8,
    portd: bv8)

  /** What the hardware reads return during one iteration: the two pin
      registers and the reading each ADC input would give. Every input is
      read at most once per iteration, so one reading per input is exact. */
  datatype Inputs = Inputs(pind: bv8, pinb: bv8, adc: seq<int>)

  predicate ValidInputs(inp: Inputs)
  {
    |inp.adc| == NUM_ADC_INPUTS &&
    forall k :: 0 <= k < NUM_ADC_INPUTS ==> IsReading(inp.adc[k])
  }

  predicate AllValid(ins: seq<Inputs>)
  {
    forall j :: 0 <= j < |ins| ==> ValidInputs(ins[j])
  }

  predicate WiredAll(chs: seq<Channel>)
  {
    |chs| == NUM_CHANNELS &&
    forall k :: 0 <= k < NUM_CHANNELS ==> Wired(chs[k], k)
  }

  /** The invariant of the loop: the channels keep their wiring, the step
      index stays inside the step memory, and every counter stays in the
      range its updates allow. */
  predicate Valid(s: State)
  {
    WiredAll(s.channels) &&
    s.count < MAX_NUM_STEPS &&
    1 <= s.prevNumSteps <= MAX_NUM_STEPS &&
    MIN_DELAY <= s.delay <= MAX_DELAY &&
    s.cyclesSinceLastTick <= MAX_DELAY &&
    s.numStepsDisplayCountdown <= NUM_STEPS_DISPLAY_DELAY &&
    s.globalCount < UINT32_MODULUS
  }

  /** The state when the loop is entered: the channels as initialised
      (released, empty sequences), step 0, no tick elapsed, the step count
      and tick length read once from the knobs, the registers as found. */
  function Initial(tempoAdc: int, stepsAdc: int, portb: bv8, portd: bv8): (s: State)
    requires IsReading(tempoAdc) && IsReading(stepsAdc)
    ensures Valid(s)
    ensures s.count == 0 && s.cyclesSinceLastTick == 0 && s.globalCount == 0
    ensures s.numStepsDisplayCountdown == 0
    ensures s.delay == Delay(tempoAdc) && s.prevNumSteps == NumSteps(stepsAdc)
    ensures s.portb == portb && s.portd == portd
    ensures forall i :: 0 <= i < NUM_CHANNELS ==> s.channels[i] == InitialChannel(i)
    ensures forall i :: 0 <= i < NUM_CHANNELS ==> !s.channels[i].pressedNow && !s.channels[i].pressedPrev
    ensures forall i, k :: 0 <= i < NUM_CHANNELS && 0 <= k < MAX_NUM_STEPS ==> !s.channels[i].sequence[k]
  {
    State(
      [InitialChannel(0), InitialChannel(1), InitialChannel(2), InitialChannel(3)],
      0, 0, Delay(tempoAdc), NumSteps(stepsAdc), 0, 0, portb, portd)
  }

  /** `pressed_now` of the four channels: PIND bits 5, 6, 7 and PINB bit 0,
      each active low. */
  function Buttons(pind: bv8, pinb: bv8): (pressed: seq<bool>)
    ensures |pressed| == NUM_CHANNELS
    ensures pressed[0] == !Bit(pind, 5) && pressed[1] == !Bit(pind, 6)
    ensures pressed[2] == !Bit(pind, 7) && pressed[3] == !Bit(pinb, 0)
  {
    [PinLow(pind, 5), PinLow(pind, 6), PinLow(pind, 7), PinLow(pinb, 0)]
  }

  /** The tick length in force this iteration: re-read from the tempo knob
      when `global_count % 512 == 0`, otherwise kept. */
  function ReloadDelay(globalCount: nat, delay: nat, tempoAdc: int): (d: nat)
    requires IsReading(tempoAdc) && MIN_DELAY <= delay <= MAX_DELAY
    ensures MIN_DELAY <= d <= MAX_DELAY
    ensures globalCount % DELAY_RELOAD_PERIOD != 0 ==> d == delay
  {
    if globalCount % DELAY_RELOAD_PERIOD == 0 then Delay(tempoAdc) else delay
  }

  /** Lines 115-118: each channel's `pressedNow` takes this iteration's
      button state. */
  function Latch(chs: seq<Channel>, pressed: seq<bool>): (r: seq<Channel>)
    requires WiredAll(chs) && |pressed| == NUM_CHANNELS
    ensures WiredAll(r)
  {
    seq(NUM_CHANNELS, k requires 0 <= k < NUM_CHANNELS => chs[k].(pressedNow := pressed[k]))
  }

  /** The latch changes nothing but `pressedNow`, which takes the button
      state. */
  lemma LatchSetsButtons(chs: seq<Channel>, pressed: seq<bool>, k: nat)
    requires WiredAll(chs) && |pressed| == NUM_CHANNELS && k < NUM_CHANNELS
    ensures var r := Latch(chs, pressed);
      r[k].pressedNow == pressed[k] && r[k].(pressedNow := chs[k].pressedNow) == chs[k]
  {
  }

  /** Every channel after its record rule is applied at step `count`. */
  function RecordEach(chs: seq<Channel>, clear: bool, count: nat): (r: seq<Channel>)
    requires WiredAll(chs) && count < MAX_NUM_STEPS
    ensures WiredAll(r)
  {
    seq(NUM_CHANNELS, k requires 0 <= k < NUM_CHANNELS => Record(chs[k], clear, count))
  }

  /** Across the channel loop every channel ends with `pressedPrev ==
      pressedNow`, only step `count` of a step memory can change, and a
      channel whose button is released keeps its step memory. */
  lemma RecordEachRule(chs: seq<Channel>, clear: bool, count: nat, k: nat)
    requires WiredAll(chs) && count < MAX_NUM_STEPS && k < NUM_CHANNELS
    ensures var r := RecordEach(chs, clear, count);
      r[k].pressedNow == chs[k].pressedNow && r[k].pressedPrev == chs[k].pressedNow &&
      (forall j :: 0 <= j < MAX_NUM_STEPS && j != count ==> r[k].sequence[j] == chs[k].sequence[j]) &&
      (!chs[k].pressedNow ==> r[k].sequence == chs[k].sequence)
  {
  }

  /** The channels part-way through the channel loop: the first n have
      had their record rule applied, the rest are as latched. */
  function RecordPrefix(chs: seq<Channel>, clear: bool, count: nat, n: nat): (r: seq<Channel>)
    requires WiredAll(chs) && count < MAX_NUM_STEPS && n <= NUM_CHANNELS
    ensures WiredAll(r)
  {
    seq(NUM_CHANNELS, k requires 0 <= k < NUM_CHANNELS =>
      if k < n then Record(chs[k], clear, count) else chs[k])
  }

  /** The loop starts from the latched channels, each pass applies the rule
      to one more channel, and after the last pass every channel has had it. */
  lemma RecordPrefixSteps(chs: seq<Channel>, clear: bool, count: nat, n: nat)
    requires WiredAll(chs) && count < MAX_NUM_STEPS && n < NUM_CHANNELS
    ensures RecordPrefix(chs, clear, count, 0) == chs
    ensures RecordPrefix(chs, clear, count, n)[n] == chs[n]
    ensures RecordPrefix(chs, clear, count, n)[n := Record(chs[n], clear, count)]
         == RecordPrefix(chs, clear, count, n + 1)
    ensures RecordPrefix(chs, clear, count, n + 1)[n] == Record(chs[n], clear, count)
    ensures RecordPrefix(chs, clear, count, NUM_CHANNELS) == RecordEach(chs, clear, count)
  {
  }

  /** The gate level of one channel: its current step is set and the tick
      is still inside the width its knob selects. */
  predicate ChannelGate(ch: Channel, i: nat, adc: seq<int>, delay: nat, cycles: nat, count: nat): (high: bool)
    requires i < NUM_CHANNELS && Wired(ch, i) && ValidInputs(Inputs(0, 0, adc))
    requires 1 <= delay <= MAX_DELAY && count < MAX_NUM_STEPS
    ensures high ==> ch.sequence[count]
    ensures ch.sequence[count] && cycles == 0 ==> high
    ensures cycles >= delay ==> !high
  {
    ch.sequence[count] && cycles < Threshold(adc[ch.adcIndex], delay)
  }

  /** The gate level each channel decides this iteration. */
  function Gates(chs: seq<Channel>, adc: seq<int>, delay: nat, cycles: nat, count: nat): (g: seq<bool>)
    requires WiredAll(chs) && ValidInputs(Inputs(0, 0, adc))
    requires 1 <= delay <= MAX_DELAY && count < MAX_NUM_STEPS
    ensures |g| == NUM_CHANNELS
    ensures forall k :: 0 <= k < NUM_CHANNELS && g[k] ==> chs[k].sequence[count]
    ensures cycles == 0 ==> forall k :: 0 <= k < NUM_CHANNELS ==> g[k] == chs[k].sequence[count]
    ensures cycles >= delay ==> forall k :: 0 <= k < NUM_CHANNELS ==> !g[k]
  {
    seq(NUM_CHANNELS, k requires 0 <= k < NUM_CHANNELS => ChannelGate(chs[k], k, adc, delay, cycles, count))
  }

  /** Channel n's entry of the gates, once its record rule has run. */
  lemma GatesAt(chs: seq<Channel>, clear: bool, adc: seq<int>, delay: nat, cycles: nat, count: nat, n: nat)
    requires WiredAll(chs) && ValidInputs(Inputs(0, 0, adc))
    requires 1 <= delay <= MAX_DELAY && count < MAX_NUM_STEPS && n < NUM_CHANNELS
    ensures Gates(RecordEach(chs, clear, count), adc, delay, cycles, count)[n]
         == ChannelGate(Record(chs[n], clear, count), n, adc, delay, cycles, count)
  {
  }

  /** The tick decision: once the tick has lasted `delay` iterations the
      step advances, wrapping to 0 at `numSteps`, and the tick restarts;
      otherwise the tick goes on. */
  function Tick(count: nat, cycles: nat, delay: nat, numSteps: nat): (r: (nat, nat))
    requires 1 <= numSteps
    ensures cycles >= delay ==> r.1 == 0 && r.0 < numSteps
    ensures cycles >= delay && count < numSteps ==> r.0 == (count + 1) % numSteps
    ensures cycles >= delay && count >= numSteps ==> r.0 == 0
    ensures cycles < delay ==> r.0 == count && r.1 == cycles + 1
  {
    if cycles >= delay then
      (if count + 1 >= numSteps then 0 else count + 1, 0)
    else
      (count, cycles + 1)
  }

  /** `global_count++` on a uint32_t: the largest value wraps to 0. */
  function Uint32Inc(g: nat): (r: nat)
    requires g < UINT32_MODULUS
    ensures r < UINT32_MODULUS
  {
    if g + 1 == UINT32_MODULUS then 0 else g + 1
  }

  /** Lines 108-118: the tick length is re-read when due, the iteration
      counter advances (wrapping as a uint32_t), and every channel latches
      its button. */
  function Prelude(s: State, inp: Inputs): (t: State)
    requires Valid(s) && ValidInputs(inp)
    ensures Valid(t)
  {
    s.(delay := ReloadDelay(s.globalCount, s.delay, inp.adc[TEMPO_ADC]),
       globalCount := Uint32Inc(s.globalCount),
       channels := Latch(s.channels, Buttons(inp.pind, inp.pinb)))
  }

  /** Lines 120-137: the channels record or clear their current step and
      drive their gates on PORTB. */
  function ChannelPass(s: State, clear: bool, adc: seq<int>): (t: State)
    requires Valid(s) && ValidInputs(Inputs(0, 0, adc))
    ensures Valid(t)
  {
    var chs := RecordEach(s.channels, clear, s.count);
    var gates := Gates(chs, adc, s.delay, s.cyclesSinceLastTick, s.count);
    s.(channels := chs, portb := GatePort(s.portb, gates, |gates|))
  }

  /** Lines 139-158: step-count change detection, the tick decision, and
      the LEDs. */
  function Finish(s: State, numSteps: nat): (t: State)
    requires Valid(s) && 1 <= numSteps <= MAX_NUM_STEPS
    ensures Valid(t)
  {
    var changed := s.prevNumSteps != numSteps;
    var countdown := if changed then NUM_STEPS_DISPLAY_DELAY else s.numStepsDisplayCountdown;
    var tick := Tick(s.count, s.cyclesSinceLastTick, s.delay, numSteps);
    s.(prevNumSteps := if changed then numSteps else s.prevNumSteps,
       count := tick.0,
       cyclesSinceLastTick := tick.1,
       numStepsDisplayCountdown := if countdown > 0 then countdown - 1 else 0,
       portd := LedPort(s.portd, if countdown > 0 then Byte(numSteps) else Byte(tick.0)))
  }

  /** One pass of the loop body, in the firmware's order. */
  function StepSpec(s: State, inp: Inputs): (t: State)
    requires Valid(s) && ValidInputs(inp)
    ensures Valid(t)
  {
    var p := Prelude(s, inp);
    Finish(ChannelPass(p, ClearButton(inp.pinb), inp.adc), NumSteps(inp.adc[STEPS_ADC]))
  }

  /** The state after the loop has run once for each of `ins`, in order. */
  function Iterate(s: State, ins: seq<Inputs>): (t: State)
    requires Valid(s) && AllValid(ins)
    ensures Valid(t)
    decreases |ins|
  {
    if ins == [] then s
    else StepSpec(Iterate(s, ins[..|ins| - 1]), ins[|ins| - 1])
  }
}
