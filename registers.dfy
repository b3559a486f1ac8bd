/** The register layer of the HD44780 driver header: bit masks, the default
    AVR pin map, the instruction constants, the bus-width enumeration and the
    three register macros SETBIT, CLRBIT and SET_IF_BIT_IN_DATA_SET.

    The macros are modelled exactly as the header writes them.  In particular
    CLRBIT is `REG &= (1 << BIT)`, without the complement: it keeps the named
    bit and zeroes every other bit of the register. */
module Registers {

  /** A bit position of an 8-bit AVR I/O register, 0 .. 7. */
  type Pin = i: bv8 | i < 8

  /** `1 << BIT`: the one-hot mask of a pin. */
  function Mask(pin: Pin): (m: bv8)
    ensures m != 0 && m & (m - 1) == 0
  {
    1 << pin
  }

  // BIT7 .. BIT0: the masks SET_IF_BIT_IN_DATA_SET tests the data byte with
  const BIT7: bv8 := 0x80
  const BIT6: bv8 := 0x40
  const BIT5: bv8 := 0x20
  const BIT4: bv8 := 0x10
  const BIT3: bv8 := 0x08
  const BIT2: bv8 := 0x04
  const BIT1: bv8 := 0x02
  const BIT0: bv8 := 0x01

  // The default pin map for ATmega8 / ATmega16: E and RS on PORTC,
  // DB7 .. DB0 on PORTB, DDRB their direction register.
  const E: Pin := 0
  const RS: Pin := 1
  const DB7: Pin := 7
  const DB6: Pin := 6
  const DB5: Pin := 5
  const DB4: Pin := 4
  const DB3: Pin := 3
  const DB2: Pin := 2
  const DB1: Pin := 1
  const DB0: Pin := 0

  // Instruction bytes
  const FourBitInitSeq: bv8 := 0x03
  const EightBitInitSeq: bv8 := 0x30
  const DispClear: bv8 := 0x01
  const DispOff: bv8 := 0x08
  const DispOn: bv8 := 0x0C
  const CursorOn: bv8 := 0x0E
  const CursorBlink: bv8 := 0x0F
  const EntryMode: bv8 := 0x06
  const FourBitMode: bv8 := 0x02

  /** Bus width.  The enumeration's values (`e4BIT = 4`, `e8BIT = 0`) are
      used by the driver as shift amounts, given here by Shift(). */
  datatype EMode = E4Bit | E8Bit
  {
    function Shift(): (n: bv8)
      ensures n <= 4
    {
      match this
      case E4Bit => 4
      case E8Bit => 0
    }
  }

  /** Value of `REG |= (1 << BIT)`: bit `pin` is raised, every other bit is
      left as it was. */
  function SetBitValue(r: bv8, pin: Pin): (s: bv8)
    ensures s & Mask(pin) == Mask(pin)
    ensures s & !Mask(pin) == r & !Mask(pin)
  {
    r | Mask(pin)
  }

  /** Value of `REG &= (1 << BIT)` as written: bit `pin` keeps its level,
      every other bit becomes 0, and no bit is ever raised. */
  function ClrBitValue(r: bv8, pin: Pin): (s: bv8)
    ensures s & Mask(pin) == r & Mask(pin)
    ensures s & !Mask(pin) == 0
    ensures s & !r == 0
  {
    r & Mask(pin)
  }

  /** Value of `if (BYTE & BIT) SETBIT(PORT, PIN)`: only bit `pin` of the
      port can change, and it ends high exactly when it was high already or
      the selected bit of the data byte is set. */
  function SetIfBitInDataSetValue(port: bv8, pin: Pin, data: bv8, bit: bv8): (s: bv8)
    ensures s & !Mask(pin) == port & !Mask(pin)
    ensures (s & Mask(pin) != 0) == (port & Mask(pin) != 0 || data & bit != 0)
  {
    if data & bit != 0 then SetBitValue(port, pin) else port
  }

  /** An 8-bit I/O register (PORTB, PORTC, DDRB) that the macros update in
      place. */
  class Register {
    var value: bv8

    constructor (v: bv8)
      ensures value == v
    {
      value := v;
    }

    /** SETBIT(REG, BIT) */
    method SetBit(pin: Pin)
      modifies this
      ensures value == SetBitValue(old(value), pin)
    {
      value := value | (1 << pin);
    }

    /** CLRBIT(REG, BIT), as written */
    method ClrBit(pin: Pin)
      modifies this
      ensures value == ClrBitValue(old(value), pin)
    {
      value := value & (1 << pin);
    }

    /** SET_IF_BIT_IN_DATA_SET(PORT, PIN, BYTE, BIT) */
    method SetIfBitInDataSet(pin: Pin, data: bv8, bit: bv8)
      modifies this
      ensures value == SetIfBitInDataSetValue(old(value), pin, data, bit)
    {
      if data & bit != 0 {
        SetBit(pin);
      }
    }
  }

  /** BIT0 .. BIT7 are the one-hot masks of pins 0 .. 7: pairwise disjoint,
      together covering the whole byte. */
  lemma BitMasks()
    ensures [BIT0, BIT1, BIT2, BIT3, BIT4, BIT5, BIT6, BIT7]
         == [Mask(0), Mask(1), Mask(2), Mask(3), Mask(4), Mask(5), Mask(6), Mask(7)]
    ensures forall i: Pin, j: Pin :: i != j ==> Mask(i) & Mask(j) == 0
    ensures BIT0 | BIT1 | BIT2 | BIT3 | BIT4 | BIT5 | BIT6 | BIT7 == 0xFF
  {
  }

  /** SETBIT twice on one pin is SETBIT once. */
  lemma SetBitIdempotent(r: bv8, pin: Pin)
    ensures SetBitValue(SetBitValue(r, pin), pin) == SetBitValue(r, pin)
  {
  }

  /** CLRBIT on two different pins, as written, leaves the register 0
      whatever it held: the first keeps only its own bit, the second then
      drops that bit too. */
  lemma ClrBitDistinctZeroes(r: bv8, p: Pin, q: Pin)
    requires p != q
    ensures ClrBitValue(ClrBitValue(r, p), q) == 0
  {
  }

  /** CLRBIT as written clears nothing when the named bit is the only high
      one: on PORTC = RS alone, CLRBIT(PORTC, RS) leaves RS high. */
  lemma ClrBitKeepsNamedBit()
    ensures ClrBitValue(Mask(RS), RS) == Mask(RS)
  {
  }

  /** Shifting by the e4BIT value moves the low nibble of a byte onto bits
      7..4 (HD44780_4BIT_MODE 0x02 becomes 0x20); shifting by the e8BIT value
      leaves the byte alone. */
  lemma ModeShifts(d: bv8)
    ensures (d << E4Bit.Shift()) >> 4 == d & 0x0F
    ensures (d << E4Bit.Shift()) & 0x0F == 0
    ensures d << E8Bit.Shift() == d
    ensures FourBitMode << E4Bit.Shift() == 0x20
  {
  }
}
