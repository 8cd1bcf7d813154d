/**
 * The four record/gate channels (`channel_t`): their fixed wiring, the
 * per-iteration record/clear rule for a step, and the gate outputs they
 * drive on PORTB.
 */
module Channels {
  import opened Ports
  import opened Knobs

  const NUM_CHANNELS := 4

  /** `channel_t`. `sequence` is the 32-entry step memory, embedded in the
      record as in the firmware. */
  datatype Channel = Channel(
    adcIndex: nat,
    outPortbIndex: nat,
    pressedNow: bool,
    pressedPrev: bool,
    allowFill: bool,
    sequence: seq<bool>)

  /** `.sequence = { 0 }`. */
  function NoSteps(): (s: seq<bool>)
    ensures |s| == MAX_NUM_STEPS
    ensures forall k :: 0 <= k < |s| ==> !s[k]
  {
    seq(MAX_NUM_STEPS, _ => false)
  }

  /** The initialiser of `channels`: channel i reads its gate-width knob on
      ADC input i + 2 and drives PORTB bit 4 - i; only channel 0 fills. */
  function InitialChannel(i: nat): (ch: Channel)
    requires i < NUM_CHANNELS
    ensures ch.adcIndex == i + 2 && ch.outPortbIndex == 4 - i
    ensures ch.allowFill <==> i == 0
    ensures !ch.pressedNow && !ch.pressedPrev && ch.sequence == NoSteps()
  {
    match i
    case 0 => Channel(2, 4, false, false, true, NoSteps())
    case 1 => Channel(3, 3, false, false, false, NoSteps())
    case 2 => Channel(4, 2, false, false, false, NoSteps())
    case 3 => Channel(5, 1, false, false, false, NoSteps())
  }

  /** Channel i keeps the wiring it was initialised with and its full step
      memory. */
  predicate Wired(ch: Channel, i: nat)
  {
    i < NUM_CHANNELS &&
    ch.adcIndex == InitialChannel(i).adcIndex &&
    ch.outPortbIndex == InitialChannel(i).outPortbIndex &&
    ch.allowFill == InitialChannel(i).allowFill &&
    |ch.sequence| == MAX_NUM_STEPS
  }

  /** The record/clear rule for the current step, applied once `pressedNow`
      holds this iteration's button state, followed by `pressed_prev =
      pressed_now`. Clear wins over recording; a fill channel records every
      iteration its button is held, any other channel only on the press. */
  function Record(ch: Channel, clear: bool, count: nat): (r: Channel)
    requires count < |ch.sequence|
    ensures r == ch.(sequence := r.sequence, pressedPrev := ch.pressedNow)
    ensures |r.sequence| == |ch.sequence|
    ensures forall k :: 0 <= k < |ch.sequence| && k != count ==> r.sequence[k] == ch.sequence[k]
  {
    var sequence :=
      if !ch.pressedNow then ch.sequence
      else if clear then ch.sequence[count := false]
      else if ch.allowFill || !ch.pressedPrev then ch.sequence[count := true]
      else ch.sequence;
    ch.(sequence := sequence, pressedPrev := ch.pressedNow)
  }

  /** What the record rule does to the current step: clear erases it,
      recording sets it, anything else leaves the step memory as it was. */
  lemma RecordRule(ch: Channel, clear: bool, count: nat)
    requires count < |ch.sequence|
    ensures var r := Record(ch, clear, count);
      (ch.pressedNow && clear ==> !r.sequence[count]) &&
      (ch.pressedNow && !clear && (ch.allowFill || !ch.pressedPrev) ==> r.sequence[count]) &&
      (!ch.pressedNow || (!clear && !ch.allowFill && ch.pressedPrev) ==> r.sequence == ch.sequence)
  {
  }

  /** A channel that writes once per press writes nothing while its button
      stays held. */
  lemma {:induction false} HeldWithoutFillIsStable(ch: Channel, count: nat)
    requires count < |ch.sequence|
    requires ch.pressedNow && ch.pressedPrev && !ch.allowFill
    ensures Record(ch, false, count) == ch
  {
    var r := Record(ch, false, count);
    assert r.sequence == ch.sequence;
  }

  /** PORTB after channels 0 .. n-1 have each written their gate bit
      `gates[k]`, in order (PORTB bit 4 - k for channel k). */
  function GatePort(portb: bv8, gates: seq<bool>, n: nat): bv8
    requires n <= |gates| && n <= NUM_CHANNELS
    decreases n
  {
    if n == 0 then portb
    else WriteBit(GatePort(portb, gates, n - 1), InitialChannel(n - 1).outPortbIndex, gates[n - 1])
  }

  /** Each channel's PORTB bit carries its gate, and no other bit of PORTB
      changes. */
  lemma {:induction false} GatePortBits(portb: bv8, gates: seq<bool>, n: nat)
    requires n <= |gates| && n <= NUM_CHANNELS
    ensures forall k :: 0 <= k < n ==> Bit(GatePort(portb, gates, n), InitialChannel(k).outPortbIndex) == gates[k]
    ensures forall c :: 0 <= c < 8 && (c < 5 - n || 4 < c) ==> Bit(GatePort(portb, gates, n), c) == Bit(portb, c)
    decreases n
  {
    if n > 0 {
      GatePortBits(portb, gates, n - 1);
      var prev, out := GatePort(portb, gates, n - 1), InitialChannel(n - 1).outPortbIndex;
      forall k | 0 <= k < n
        ensures Bit(GatePort(portb, gates, n), InitialChannel(k).outPortbIndex) == gates[k]
      {
        if k < n - 1 {
          WriteBitKeeps(prev, out, gates[n - 1], InitialChannel(k).outPortbIndex);
        }
      }
      forall c | 0 <= c < 8 && (c < 5 - n || 4 < c)
        ensures Bit(GatePort(portb, gates, n), c) == Bit(portb, c)
      {
        WriteBitKeeps(prev, out, gates[n - 1], c);
      }
    }
  }
}
