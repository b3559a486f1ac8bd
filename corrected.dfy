/** The send routines with CLRBIT as its name and comment intend,
    `REG &= ~(1 << BIT)`: the named bit is cleared and every other bit kept.

    Each routine here is the composition of the corrected macro values in
    the order the routines of lib/hd44780.c apply them, over the pins that
    change: PORTC (E, RS) and PORTB.  With this CLRBIT every call shows what
    it should: a rising edge of E, RS selecting the instruction or the data
    register, and the intended frame on the wired data pins. */
module Corrected {
  import opened Registers
  import opened Driver

  /** CLRBIT as intended: bit `pin` becomes 0, every other bit is kept. */
  function ClearBitValue(r: bv8, pin: Pin): (s: bv8)
    ensures s & Mask(pin) == 0
    ensures s & !Mask(pin) == r & !Mask(pin)
  {
    r & !Mask(pin)
  }

  /** SendUppNibble with the intended CLRBIT: DB7..DB4 take bits 7..4 of the
      data, DB3..DB0 keep their level. */
  function UppNibbleValue(port: bv8, data: bv8): (s: bv8)
    ensures s == (port & 0x0F) | (data & 0xF0)
  {
    var p := ClearBitValue(ClearBitValue(ClearBitValue(ClearBitValue(port, DB7), DB6), DB5), DB4);
    var p := SetIfBitInDataSetValue(p, DB7, data, BIT7);
    var p := SetIfBitInDataSetValue(p, DB6, data, BIT6);
    var p := SetIfBitInDataSetValue(p, DB5, data, BIT5);
    SetIfBitInDataSetValue(p, DB4, data, BIT4)
  }

  /** SendLowNibble with the intended CLRBIT: DB3..DB0 take bits 3..0 of the
      data, DB7..DB4 keep their level. */
  function LowNibbleValue(port: bv8, data: bv8): (s: bv8)
    ensures s == (port & 0xF0) | (data & 0x0F)
  {
    var p := ClearBitValue(ClearBitValue(ClearBitValue(ClearBitValue(port, DB3), DB2), DB1), DB0);
    var p := SetIfBitInDataSetValue(p, DB3, data, BIT3);
    var p := SetIfBitInDataSetValue(p, DB2, data, BIT2);
    var p := SetIfBitInDataSetValue(p, DB1, data, BIT1);
    SetIfBitInDataSetValue(p, DB0, data, BIT0)
  }

  /** PORTB at the E pulse of SendNibbles with the intended CLRBIT: in 8-bit
      mode the whole byte; in 4-bit mode the low nibble of the byte on
      DB7..DB4, the unused DB3..DB0 as they were. */
  function FixedFrame(port: bv8, data: bv8, mode: EMode): (s: bv8)
    ensures mode == E8Bit ==> s == data
    ensures mode == E4Bit ==> s & 0xF0 == (data & 0x0F) << 4 && s & 0x0F == port & 0x0F
  {
    var p := UppNibbleValue(port, data << mode.Shift());
    if mode == E8Bit then LowNibbleValue(UppNibbleValue(p, data & 0xF0), data & 0x0F) else p
  }

  /** The frame a call is meant to show on the data pins in use. */
  ghost predicate IntendedFrame(db: bv8, data: bv8, mode: EMode)
  {
    match mode
    case E4Bit => db & 0xF0 == (data & 0x0F) << 4
    case E8Bit => db == data
  }

  /** What a call is meant to show: a rising edge of E with RS = 0 for an
      instruction, RS = 1 for data, and the intended frame; a delay for a
      wait. */
  ghost predicate Intended(step: Step, ev: Event)
  {
    match step
    case Instruction(d, m) =>
      ev.Strobe? && ev.rising && ev.ctrl & Mask(E) != 0 && ev.ctrl & Mask(RS) == 0
      && IntendedFrame(ev.db, d, m)
    case Data(d, m) =>
      ev.Strobe? && ev.rising && ev.ctrl & Mask(E) != 0 && ev.ctrl & Mask(RS) != 0
      && IntendedFrame(ev.db, d, m)
    case Wait(us) =>
      ev == Delay(us)
  }

  /** PORTC and PORTB. */
  datatype Pins = Pins(ctrl: bv8, db: bv8)

  /** The pins after a call, and the event the call shows. */
  datatype FixedOutcome = FixedOutcome(pins: Pins, event: Event)

  /** One call with the intended CLRBIT.  SendInstruction clears RS, SendData
      sets it; the frame is written; PulseE raises E and then clears it;
      SendData clears RS at the end.  Every call leaves E and RS low and the
      other PORTC bits as they were, and the strobe is a rising edge exactly
      when E was low before the call. */
  function FixedTransfer(p: Pins, step: Step): (o: FixedOutcome)
    ensures step.Wait? ==> o == FixedOutcome(p, Delay(step.us))
    ensures !step.Wait? ==>
              o.pins.ctrl & (Mask(E) | Mask(RS)) == 0
              && o.pins.ctrl & !(Mask(E) | Mask(RS)) == p.ctrl & !(Mask(E) | Mask(RS))
              && o.event.Strobe? && o.event.db == o.pins.db == FixedFrame(p.db, step.data, step.mode)
              && o.event.ctrl & Mask(E) != 0
              && (o.event.ctrl & Mask(RS) != 0 <==> step.Data?)
              && (o.event.rising <==> p.ctrl & Mask(E) == 0)
  {
    match step
    case Instruction(d, m) =>
      var c := ClearBitValue(p.ctrl, RS);
      var db := FixedFrame(p.db, d, m);
      var high := SetBitValue(c, E);
      FixedOutcome(Pins(ClearBitValue(high, E), db), Strobe(db, high, c & Mask(E) == 0))
    case Data(d, m) =>
      var c := SetBitValue(p.ctrl, RS);
      var db := FixedFrame(p.db, d, m);
      var high := SetBitValue(c, E);
      FixedOutcome(Pins(ClearBitValue(ClearBitValue(high, E), RS), db), Strobe(db, high, c & Mask(E) == 0))
    case Wait(us) =>
      FixedOutcome(p, Delay(us))
  }

  /** The pins after a sequence of corrected calls, and the events shown. */
  datatype FixedReplay = FixedReplay(pins: Pins, events: seq<Event>)

  /** A sequence of corrected calls from pins p0: one event per call, and E
      stays low between calls when it was low to begin with. */
  function FixedRun(p0: Pins, steps: seq<Step>): (r: FixedReplay)
    ensures |r.events| == |steps|
    ensures p0.ctrl & Mask(E) == 0 ==> r.pins.ctrl & Mask(E) == 0
  {
    if steps == [] then FixedReplay(p0, [])
    else
      var prev := FixedRun(p0, steps[..|steps| - 1]);
      var o := FixedTransfer(prev.pins, steps[|steps| - 1]);
      FixedReplay(o.pins, prev.events + [o.event])
  }

  /** With the intended CLRBIT, from any PORTB and any PORTC with E low (as
      after reset), every call of any sequence shows what it is meant to:
      a rising edge of E, the right register select, whatever RS was on
      entry, and the intended frame, in 8-bit mode the whole byte. */
  lemma {:induction false} FixedRunIntended(p0: Pins, steps: seq<Step>)
    requires p0.ctrl & Mask(E) == 0
    ensures forall i :: 0 <= i < |steps| ==> Intended(steps[i], FixedRun(p0, steps).events[i])
  {
    if steps != [] {
      var n := |steps| - 1;
      FixedRunIntended(p0, steps[..n]);
      forall i | 0 <= i < |steps|
        ensures Intended(steps[i], FixedRun(p0, steps).events[i])
      {
        if i < n {
          assert steps[i] == steps[..n][i];
        }
      }
    }
  }

  /** The corrected routines agree with the routines as written wherever
      CLRBIT's two readings cannot be told apart: in 4-bit mode the frame
      on DB7..DB4 is the same, and in 8-bit mode a byte whose upper nibble
      is 0 is framed the same. */
  lemma AgreesWithWritten(port: bv8, d: bv8)
    ensures FixedFrame(port, d, E4Bit) & 0xF0 == FrameOnBus(d, E4Bit)
    ensures d & 0xF0 == 0 ==> FixedFrame(port, d, E8Bit) == FrameOnBus(d, E8Bit)
  {
  }

  /** Function set for a 4-bit bus, two lines, 5x8 dots: DL = 0, N = 1,
      F = 0. */
  const FourBitTwoLineFunctionSet: bv8 := 0x28

  /** HD44780_Init's 4-bit schedule with the function set of Figure 24 of
      the HD44780U datasheet put back: after the mode switch and its 41 us,
      the function-set byte is sent as its upper and its lower nibble and
      followed by 41 us; every other call is as written. */
  function FixedFourBitInitSchedule(): (s: seq<Step>)
    ensures |s| == 21
    ensures s[..9] == InitSchedule(E4Bit)[..9] && s[12..] == InitSchedule(E4Bit)[9..]
    ensures s[9..12] == [Instruction(FourBitTwoLineFunctionSet >> 4, E4Bit),
                         Instruction(FourBitTwoLineFunctionSet & 0x0F, E4Bit), Wait(41)]
  {
    var f := InitSeq(E4Bit);
    [Wait(15000), Instruction(f, E4Bit), Wait(4100), Instruction(f, E4Bit), Wait(100),
     Instruction(f, E4Bit), Wait(41), Instruction(FourBitMode, E4Bit), Wait(41),
     Instruction(0x02, E4Bit), Instruction(0x08, E4Bit), Wait(41),
     Instruction(0x00, E4Bit), Instruction(DispOff, E4Bit), Wait(41),
     Instruction(0x00, E4Bit), Instruction(DispClear, E4Bit), Wait(41),
     Instruction(0x00, E4Bit), Instruction(EntryMode, E4Bit), Wait(41)]
  }

  /** Whatever PORTC holds, the corrected schedule shows, right after the
      mode switch, two frames on DB7..DB4 that assemble to the two-line
      function set. */
  lemma FixedInitSetsLines(c0: bv8)
    ensures var ev := Run(c0, FixedFourBitInitSchedule()).events;
            ev[7].Strobe? && ev[7].db == 0x20
            && ev[9].Strobe? && ev[10].Strobe?
            && Assemble(ev[9].db, ev[10].db) == FourBitTwoLineFunctionSet
  {
    RunFrames(c0, FixedFourBitInitSchedule());
  }
}
