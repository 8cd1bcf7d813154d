/**
 * The five step LEDs on PORTD bits 0..4 (set_count_leds). The board wires
 * them in reverse order, so the value shown is bit-reversed over five bits
 * before it is written, and the other three PORTD bits are left alone.
 */
module Leds {
  import opened Ports

  /** The uint8_t value v. */
  function Byte(v: nat): bv8
    requires v < 256
  {
    v as bv8
  }

  /** COUNT_MASK: PORTD bits 0..4, the LED lines. */
  const COUNT_MASK: bv8 := 0x1F

  /** The `count_bits` expression: bit i of the value goes to bit 4 - i,
      and bits 5..7 of the value are dropped. */
  function CountBits(count: bv8): (r: bv8)
    ensures r & !COUNT_MASK == 0
    ensures Bit(r, 4) == Bit(count, 0)
    ensures Bit(r, 3) == Bit(count, 1)
    ensures Bit(r, 2) == Bit(count, 2)
    ensures Bit(r, 1) == Bit(count, 3)
    ensures Bit(r, 0) == Bit(count, 4)
  {
    ((count & 0x01) << 4) |
    ((count & 0x02) << 2) |
    (count & 0x04) |
    ((count & 0x08) >> 2) |
    ((count & 0x10) >> 4)
  }

  /** Reversing twice gives back the five low bits. */
  lemma CountBitsInvolutive(count: bv8)
    ensures CountBits(CountBits(count)) == count & COUNT_MASK
  {
  }

  /** Bits of the value above bit 4 do not reach the LEDs. */
  lemma CountBitsIgnoresHighBits(count: bv8)
    ensures CountBits(count) == CountBits(count & COUNT_MASK)
  {
  }

  /** On values below 32 the encoding is a bijection onto the LED patterns. */
  lemma CountBitsInjective(x: bv8, y: bv8)
    requires x < 32 && y < 32
    ensures CountBits(x) == CountBits(y) <==> x == y
  {
    CountBitsInvolutive(x);
    CountBitsInvolutive(y);
  }

  /** PORTD after `PORTD &= ~COUNT_MASK; PORTD |= count_bits;`. */
  function LedPort(portd: bv8, count: bv8): (r: bv8)
    ensures r & !COUNT_MASK == portd & !COUNT_MASK
    ensures r & COUNT_MASK == CountBits(count)
  {
    (portd & !COUNT_MASK) | CountBits(count)
  }

  /** Whether the LEDs of PORTD currently display the five low bits of the
      value v. */
  predicate Shows(portd: bv8, v: nat)
  {
    v < 256 && portd & COUNT_MASK == CountBits(Byte(v))
  }

  /** Only five LEDs: a step count of 32 lights none of them, and looks
      exactly like 0. */
  lemma ThirtyTwoShowsAsZero(portd: bv8)
    ensures CountBits(Byte(32)) == 0
    ensures Shows(portd, 32) <==> Shows(portd, 0)
  {
  }
}
