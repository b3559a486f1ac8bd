# HD44780 driver: GPIO register model

This project models the register layer of the HD44780 character-LCD driver
for AVR ATmega8 / ATmega16. It covers the following parts:

- `lib/hd44780.h`: the `SETBIT`, `CLRBIT` and `SET_IF_BIT_IN_DATA_SET` macros, the
  `BIT0`..`BIT7` masks, the instruction constants, the `EMode` bus width and
  the default pin map. This is module `Registers`, in `registers.dfy`.
- `lib/hd44780.c`: the send routines and the power-on initialisation. Each is an
  in-place update of PORTB (the data bus DB7..DB0), PORTC (E on bit 0, RS on
  bit 1) and DDRB (the direction of the data bus). This is module `Driver`, class
  `Lcd`, in `driver.dfy`.

Each register is a `Register` object holding a byte. The three macros are
methods on it, and each method is specified by a pure function of the old
value. The macros are modelled exactly as the header writes them. In
particular, `CLRBIT` is `REG &= (1 << BIT)`: it keeps the named bit and zeroes
every other bit.

`Lcd` carries a ghost trace of what the bus shows. A `Strobe` is recorded at
each `SETBIT` of E, including one that finds E already high. It holds PORTB,
PORTC, and whether E was low just before. A
`Delay` is recorded for each `_delay_us` / `_delay_ms` call. Each send routine
is proved against the pure function `Transfer`, which gives one driver-level
call's effect on PORTC and the one event it shows. A sequence of calls is proved
against `Run`, which applies `Transfer` to each call in turn. `HD44780_Init` is
proved to show exactly `Run` of its schedule of eighteen calls.

The pin map and the instruction constants (`lib/hd44780.h:27-79`, `82-100`)
are constants of module `Registers` with the header's values.

Module `Corrected`, in `corrected.dfy`, states the evidently intended routines:
the same composition of macros, with `CLRBIT` as `REG &= ~(1 << BIT)`. It proves
that every call then shows what it should.

## Source readings

Some lines of `lib/hd44780.c` and `lib/hd44780.h` do not compile as shown. The
model reads them as follows:

- `lib/hd44780.c:30-33` set `DB7`..`DB4`. These are read as `HD44780_DB7`..`HD44780_DB4`.
- `HD44780_INIT_SEQ` (`lib/hd44780.c:58`, `69`, `80`) is not defined. It is read as:
  - `HD44780_4BIT_INIT_SEQ` (0x03) in 4-bit mode;
  - `HD44780_8BIT_INIT_SEQ` (0x30) in 8-bit mode.

  Either way, the shifted value is 0011 on DB7..DB4 (`InitSeq`).
- `HD44780_SendData` (`lib/hd44780.c:165-173`) uses a `mode` that is not in scope.
  The model passes the bus width as a parameter.
- The `EMode` enumeration (`lib/hd44780.h:110-113`) separates its values with
  `;`. They are read as `e4BIT = 4` and `e8BIT = 0`. The values are used as
  shift amounts (`EMode.Shift`).
- `data` is `unsigned short int`, but only its low byte reaches the pins. The
  low byte of `data << mode` is the 8-bit shift of the low byte. So data is a
  byte (`bv8`) here.
- `HD44780_Init` is split into two methods, `SetDataDirection` (`lib/hd44780.c:29-40`)
  and `SendInitSequence` (`lib/hd44780.c:52-141`). `Init` calls them in that order.

## Model

| member | source | states |
|---|---|---|
| Registers.Mask | lib/hd44780.h:103-105 | the mask `1 << BIT` the macros use has exactly one bit set |
| Registers.BitMasks | lib/hd44780.h:82-89 | BIT0..BIT7 are `1 << 0` .. `1 << 7`, pairwise disjoint, and together cover 0xFF |
| Registers.SetBitValue | lib/hd44780.h:103 | SETBIT raises bit `pin` and leaves every other bit as it was |
| Registers.Register.SetBit | lib/hd44780.h:103 | the register's new value is SetBitValue of the old one |
| Registers.SetBitIdempotent | lib/hd44780.h:103 | SETBIT twice on one pin equals SETBIT once |
| Registers.ClrBitValue | lib/hd44780.h:104-105 | CLRBIT as written keeps bit `pin`, zeroes every other bit and never raises a bit |
| Registers.Register.ClrBit | lib/hd44780.h:105 | the register's new value is ClrBitValue of the old one |
| Registers.ClrBitDistinctZeroes | lib/hd44780.h:105 | CLRBIT on two different pins leaves the register 0, whatever it held |
| Registers.ClrBitKeepsNamedBit | lib/hd44780.h:104-105 | CLRBIT(PORTC, RS) on PORTC = RS alone leaves RS high: the macro clears nothing it names |
| Registers.SetIfBitInDataSetValue | lib/hd44780.h:107 | only bit `pin` can change, and it ends high exactly when it was high or the selected bit of the data byte is set |
| Registers.Register.SetIfBitInDataSet | lib/hd44780.h:107 | the register's new value is SetIfBitInDataSetValue of the old one |
| Registers.EMode.Shift | lib/hd44780.h:110-113 | the bus-width values used as shift amounts are at most 4 |
| Registers.ModeShifts | lib/hd44780.h:110-113 | the e4BIT shift moves the low nibble onto bits 7..4 (0x02 becomes 0x20); the e8BIT shift changes nothing |
| Driver.InitSeq | lib/hd44780.h:91-92 | the function-set byte of each mode, shifted by the mode, is 0x30: 0011 on DB7..DB4 |
| Driver.Lcd.SendUppNibble | lib/hd44780.c:203-215 | PORTB ends as `data & 0xF0`: DB7..DB4 follow bits 7..4 of the data and the CLRBITs zero DB3..DB0 |
| Driver.Lcd.SendLowNibble | lib/hd44780.c:223-235 | PORTB ends as `data & 0x0F`: DB3..DB0 follow bits 3..0 and DB7..DB4 are zeroed |
| Driver.Lcd.PulseE | lib/hd44780.c:243-251 | one strobe of the current PORTB with E raised is shown, a rising edge exactly when E was low; PORTC ends as E alone (E still high, RS 0) |
| Driver.Lcd.SendNibbles | lib/hd44780.c:182-195 | exactly one strobe per call; PORTB at the strobe is FrameOnBus: the low nibble on DB7..DB4 in 4-bit mode, on DB3..DB0 with DB7..DB4 at 0 in 8-bit mode |
| Driver.Lcd.SendInstruction | lib/hd44780.c:151-157 | PORTC and the single event shown are those of Transfer for an instruction: RS at the strobe is the RS found on entry, and PORTC ends as E alone |
| Driver.Lcd.SendData | lib/hd44780.c:165-173 | PORTC and the single event shown are those of Transfer for data: RS is 1 at the strobe, and PORTC ends 0 |
| Driver.Lcd.DelayUs | lib/hd44780.c:74 | a delay appends one Delay event of its duration in microseconds |
| Driver.Lcd.Init | lib/hd44780.c:27-142 | DDRB gains DB7..DB4 (and DB3..DB0 in 8-bit mode) with the other bits kept; the trace grows by exactly Run of InitSchedule; PORTC ends as E alone; PORTB ends as the last frame sent, the lower nibble of entry mode (0x60 in 4-bit mode, 0x06 in 8-bit mode) |
| Driver.Lcd.SetDataDirection | lib/hd44780.c:29-40 | DDRB keeps its other bits and gains bits 7..4 in 4-bit mode, all eight bits in 8-bit mode |
| Driver.Lcd.SendInitSequence | lib/hd44780.c:52-141 | the 18 calls HD44780_Init makes after setting DDRB show exactly the events of Run of InitSchedule; PORTC ends as E alone and PORTB as the lower nibble of entry mode (0x60 in 4-bit mode, 0x06 in 8-bit mode) |
| Driver.InitSchedule | lib/hd44780.c:52-141 | HD44780_Init's 18 calls (its comments cite Figure 24 of the datasheet, but the figure's function set with line count and font is missing): 15 ms first, then instructions only, each in Init's own bus width |
| Driver.FrameOnBus | lib/hd44780.c:182-195 | the frame a send shows: in 4-bit mode the low nibble on DB7..DB4 with DB3..DB0 at 0; in 8-bit mode, as written, the low nibble on DB3..DB0 with DB7..DB4 at 0 |
| Driver.RunFrames | lib/hd44780.c:151-195 | whatever PORTC holds, every send of any sequence of calls shows one strobe, of its own frame |
| Driver.Transfer | lib/hd44780.c:151-173 | every completed send leaves RS low and shows one strobe; an instruction leaves E high and is a rising edge; data leaves PORTC 0 and is strobed with RS high; a wait changes nothing |
| Driver.Run | lib/hd44780.c:151-173 | one event per call, and RS stays low after every call when it started low |
| Driver.RegisterSelect | lib/hd44780.c:151-173 | from a PORTC with RS low, every call of any sequence is strobed with E high, RS = 0 for an instruction and RS = 1 for data, and with its frame |
| Driver.FourBitRoundTrip | lib/hd44780.c:103-136 | in 4-bit mode, a byte sent as its upper then its lower nibble shows two frames that assemble back to the byte |
| Driver.FrameContents | lib/hd44780.c:182-195 | an 8-bit frame equals the byte if and only if the byte's upper nibble is 0 |
| Driver.EightBitDropsUpperNibble | lib/hd44780.c:187-191 | as written, data 0x41 in 8-bit mode shows 0x01 on the bus |
| Driver.NoRisingEdgeAfterInstruction | lib/hd44780.c:243-251 | as written, data sent after an instruction is strobed while E is already high, with no rising edge |
| Driver.InstructionStrobedAsData | lib/hd44780.c:151-157 | as written, an instruction sent while RS is high is strobed with RS = 1, which is not what an instruction should show |
| Driver.InitTraceIsRun | lib/hd44780.c:52-141 | the trace of the Init calls, written out call by call, is Run of InitSchedule; PORTC ends as E alone |
| Driver.InitEvents | lib/hd44780.c:52-141 | Init shows, in order: 15000 us; three function-set strobes with 4100, 100 and 41 us after them; the mode switch; display off, clear and entry mode as nibble pairs, 41 us after each step; every strobe rising with E high, RS low except that the first keeps the RS it found |
| Driver.InitBusFourBit | lib/hd44780.c:52-141 | in 4-bit mode the bus shows 0x30 three times, then 0x20, 0x00/0x80, 0x00/0x10 and 0x00/0x60, which assemble to display off, clear and entry mode |
| Driver.InitBusEightBit | lib/hd44780.c:34-141 | in 8-bit mode, as written, the bus shows 0x00 for the three function-set attempts, then 0x02, 0x00/0x08, 0x00/0x01 and 0x00/0x06 |
| Corrected.ClearBitValue | lib/hd44780.h:104-105 | the intended CLRBIT clears bit `pin` and keeps every other bit |
| Corrected.UppNibbleValue | lib/hd44780.c:203-215 | with the intended CLRBIT, DB7..DB4 take bits 7..4 of the data and DB3..DB0 are kept |
| Corrected.LowNibbleValue | lib/hd44780.c:223-235 | with the intended CLRBIT, DB3..DB0 take bits 3..0 of the data and DB7..DB4 are kept |
| Corrected.FixedFrame | lib/hd44780.c:182-195 | with the intended CLRBIT, the 8-bit frame is the whole byte, and the 4-bit frame carries the low nibble on DB7..DB4 |
| Corrected.FixedTransfer | lib/hd44780.c:151-173 | with the intended CLRBIT, every send leaves E and RS low and the other PORTC bits alone; it strobes with E high and RS = 1 exactly for data, whatever RS was before; it is a rising edge exactly when E was low |
| Corrected.FixedRun | lib/hd44780.c:151-173 | one event per call, and E stays low after every call when it started low |
| Corrected.FixedRunIntended | lib/hd44780.c:151-251 | from E low, every call of any sequence shows a rising strobe with the right RS and the intended frame |
| Corrected.FixedFourBitInitSchedule | lib/hd44780.c:91-106 | the 4-bit Init schedule with the function set for two lines and 5x8 dots (0x28) put back after the mode switch, as its upper and lower nibble and 41 us; every other call is as in InitSchedule |
| Corrected.FixedInitSetsLines | lib/hd44780.c:91-106 | from any PORTC, the corrected schedule shows the mode switch 0x20 and then two frames that assemble to 0x28 |
| Corrected.AgreesWithWritten | lib/hd44780.c:182-195 | the corrected frame agrees with the as-written one on DB7..DB4 in 4-bit mode, and in 8-bit mode for bytes whose upper nibble is 0 |

## Left out

- `main.c` is not part of this model. It is a demonstration that calls display
  functions absent from the driver files (clear, draw string, position, cursor,
  shift). It also calls `HD44780_Init` without its argument.
- Real-time behaviour of `_delay_ms` / `_delay_us` is not modelled. Each delay is
  an event carrying its duration in whole microseconds, so `_delay_ms(4.1)` is
  4100. The 0.5 us hold inside `HD44780_PulseE` is part of the strobe event.
- The `_FCPU` clock and the per-MCU conditionals (`lib/hd44780.h:17-25`) are not
  modelled. The default ATmega8/ATmega16 pin map is fixed as constants.
- The E and RS direction register (DDRC) has no model. The code never writes it.
- The LCD's own response (DDRAM, cursor, display state) is not modelled. Neither
  is any electrical timing beyond the order of events.
- The busy flag, the R/W line and reading the data bus are not modelled. None of
  them appears in the driver.
- The `Lcd` class models the routines as written. The corrected routines of
  module `Corrected` are pure functions over PORTC and PORTB. They do not model
  the in-place updates or the DDRB writes.

## Findings

| source | as written | input that shows it | evidently intended | confidence | as-written member | corrected member |
|---|---|---|---|---|---|---|
| lib/hd44780.h:105 | `CLRBIT` is `REG &= (1 << BIT)`. It keeps the named bit and zeroes all the others | PORTC = 0x02 (RS high): `CLRBIT(PORTC, RS)` leaves 0x02 | `REG &= ~(1 << BIT)`: clear the named bit only | high, not executed | Registers.ClrBitKeepsNamedBit | Corrected.ClearBitValue |
| lib/hd44780.c:243-251 | `HD44780_PulseE` ends with that `CLRBIT`, which leaves E high. `HD44780_SendData` does not lower E before raising it. E falls only at `SendInstruction`'s leading `CLRBIT` on RS or at `SendData`'s trailing one | an instruction, then data: E is already high when `SendData` raises it | E low after every pulse, so each send is a rising edge of E | high, not executed | Driver.NoRisingEdgeAfterInstruction | Corrected.FixedRunIntended |
| lib/hd44780.c:187-191 | in 8-bit mode, the `CLRBIT`s of `HD44780_SendLowNibble` zero the DB7..DB4 that `HD44780_SendUppNibble` just wrote | data 0x41 shows 0x01; the function-set 0x30 shows 0x00 | the whole byte on DB7..DB0 | high, not executed | Driver.EightBitDropsUpperNibble | Corrected.FixedFrame |
| lib/hd44780.c:151-157 | the leading `CLRBIT` of `HD44780_SendInstruction` cannot lower RS | PORTC = 0x02 on entry: the instruction is strobed with RS = 1 | RS = 0 at every instruction strobe | medium (PORTC is 0 after reset), not executed | Driver.InstructionStrobedAsData | Corrected.FixedTransfer |
| lib/hd44780.c:91-106 | in 4-bit mode, `HD44780_Init` goes from the mode switch (0x2) straight to display off. The function set that carries the line count and font, which its comment's Figure 24 sends next, is never sent | `Init(e4BIT)`: the bus shows 0x20, then 0x00 and 0x80 (display off) | function set 0x28 (4-bit, two lines, 5x8 dots) sent as 0x2 and 0x8 before display off; `main.c:40` writes to the second row | medium, not executed | Driver.InitBusFourBit | Corrected.FixedInitSetsLines |
