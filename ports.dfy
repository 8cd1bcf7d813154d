/**
 * The byte-wide AVR I/O registers the sequencer touches (PORTB, PORTD written
 * as outputs, PINB, PIND read as inputs), modelled as 8-bit vectors.
 */
module Ports {

  /** BIT(b) of the firmware's util.h: the byte whose only set bit is bit b.
      Written as a table so that the solver never shifts by a symbolic amount. */
  function Mask(b: nat): (m: bv8)
    requires b < 8
    ensures m != 0 && m & (m - 1) == 0
  {
    if b == 0 then 0x01 else if b == 1 then 0x02 else if b == 2 then 0x04
    else if b == 3 then 0x08 else if b == 4 then 0x10 else if b == 5 then 0x20
    else if b == 6 then 0x40 else 0x80
  }

  /** The table agrees with the shift the macro performs. */
  lemma MaskIsShift(b: nat)
    requires b < 8
    ensures Mask(b) == (1 as bv8) << b
  {
    if b == 0 {} else if b == 1 {} else if b == 2 {} else if b == 3 {}
    else if b == 4 {} else if b == 5 {} else if b == 6 {} else {}
  }

  /** Whether bit b of register p is 1. */
  predicate Bit(p: bv8, b: nat)
    requires b < 8
  {
    p & Mask(b) != 0
  }

  /** An active-low input: the button wired to pin b pulls it to 0 when held. */
  predicate PinLow(pin: bv8, b: nat)
    requires b < 8
  {
    pin & Mask(b) == 0
  }

  /** `PORT |= BIT(b)` when v holds, `PORT &= ~BIT(b)` otherwise: bit b
      becomes v and the seven other bits are left as they were. */
  function WriteBit(p: bv8, b: nat, v: bool): (r: bv8)
    requires b < 8
    ensures Bit(r, b) == v
    ensures r & !Mask(b) == p & !Mask(b)
  {
    if v then p | Mask(b) else p & !Mask(b)
  }

  /** Bit by bit: every bit other than b reads as before the write. */
  lemma WriteBitKeeps(p: bv8, b: nat, v: bool, c: nat)
    requires b < 8 && c < 8 && c != b
    ensures Bit(WriteBit(p, b, v), c) == Bit(p, c)
  {
  }
}
