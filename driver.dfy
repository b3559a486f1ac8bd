/** The HD44780 send routines and the power-on initialisation, as in-place
    updates of PORTB (data bus), PORTC (E on bit 0, RS on bit 1) and DDRB
    (data-bus direction), together with a ghost trace of what the bus shows.

    The class Lcd performs the register updates step by step, through the
    macros of module Registers.  Each of its send routines is proved against
    the pure function Transfer (PORTC afterwards and the one event shown), and
    a sequence of calls against Run, Transfer iterated; the lemmas after the
    class state what those functions promise. */
module Driver {
  import opened Registers

  /** One thing the bus shows, in order. */
  datatype Event =
      // SETBIT(PORT_E, E) and the >= 0.5 us hold: PORTB and PORTC while E is
      // high; `rising` says whether E was low just before
    | Strobe(db: bv8, ctrl: bv8, rising: bool)
      // _delay_us / _delay_ms, in microseconds
    | Delay(us: nat)

  /** One driver-level call: SendInstruction, SendData or a delay. */
  datatype Step =
    | Instruction(data: bv8, mode: EMode)
    | Data(data: bv8, mode: EMode)
    | Wait(us: nat)

  /** PORTB at the E pulse of SendNibbles: in 4-bit mode the low nibble of
      the byte on DB7..DB4; in 8-bit mode, as the routines are written, the
      low nibble on DB3..DB0 and the upper data pins 0. */
  function FrameOnBus(data: bv8, mode: EMode): (f: bv8)
    ensures mode == E4Bit ==> f & 0x0F == 0 && f >> 4 == data & 0x0F
    ensures mode == E8Bit ==> f & 0xF0 == 0 && f & 0x0F == data & 0x0F
  {
    match mode
    case E4Bit => (data & 0x0F) << 4
    case E8Bit => data & 0x0F
  }

  /** What the controller assembles from two 4-bit frames: DB7..DB4 of the
      first as the upper nibble, DB7..DB4 of the second as the lower one. */
  function Assemble(first: bv8, second: bv8): bv8
  {
    (first & 0xF0) | (second >> 4)
  }

  /** PORTC after a call, and the event the call shows. */
  datatype Outcome = Outcome(ctrl: bv8, event: Event)

  /** One driver-level call from PORTC = c.  SendInstruction's CLRBIT on RS
      keeps RS and drops E, so its strobe carries the RS it found; SendData
      raises RS first.  Both end through PulseE, whose CLRBIT on E leaves
      PORTC = E alone; SendData's final CLRBIT on RS then zeroes PORTC.
      Either way a completed send leaves RS low. */
  function Transfer(c: bv8, step: Step): (o: Outcome)
    ensures !step.Wait? ==> o.ctrl & Mask(RS) == 0 && o.event.Strobe?
    ensures step.Instruction? ==> o.ctrl & Mask(E) != 0 && o.event.rising
    ensures step.Data? ==> o.ctrl == 0 && o.event.ctrl & Mask(RS) != 0
    ensures step.Wait? ==> o == Outcome(c, Delay(step.us))
  {
    match step
    case Instruction(d, m) =>
      Outcome(Mask(E), Strobe(FrameOnBus(d, m), (c & Mask(RS)) | Mask(E), true))
    case Data(d, m) =>
      Outcome(0, Strobe(FrameOnBus(d, m), c | Mask(RS) | Mask(E), c & Mask(E) == 0))
    case Wait(us) =>
      Outcome(c, Delay(us))
  }

  /** PORTC after a sequence of calls, and the events they showed. */
  datatype Replay = Replay(ctrl: bv8, events: seq<Event>)

  /** A sequence of calls from PORTC = c0: one event per call, and RS stays
      low throughout when it was low to begin with. */
  function Run(c0: bv8, steps: seq<Step>): (r: Replay)
    ensures |r.events| == |steps|
    ensures c0 & Mask(RS) == 0 ==> r.ctrl & Mask(RS) == 0
  {
    if steps == [] then Replay(c0, [])
    else
      var prev := Run(c0, steps[..|steps| - 1]);
      var o := Transfer(prev.ctrl, steps[|steps| - 1]);
      Replay(o.ctrl, prev.events + [o.event])
  }

  /** What a call should show on the bus: a strobe of its frame with E high
      and RS = 0 for an instruction, RS = 1 for data; a delay for a wait. */
  ghost predicate Emits(step: Step, ev: Event)
  {
    match step
    case Instruction(d, m) =>
      ev.Strobe? && ev.db == FrameOnBus(d, m) && ev.ctrl & Mask(E) != 0 && ev.ctrl & Mask(RS) == 0
    case Data(d, m) =>
      ev.Strobe? && ev.db == FrameOnBus(d, m) && ev.ctrl & Mask(E) != 0 && ev.ctrl & Mask(RS) != 0
    case Wait(us) =>
      ev == Delay(us)
  }

  /** The function-set byte of the three blind attempts: 0x03 in 4-bit mode,
      0x30 in 8-bit mode, so that after the shift by the mode the attempt
      reads 0011 on DB7..DB4 either way. */
  function InitSeq(mode: EMode): (b: bv8)
    ensures b << mode.Shift() == 0x30
  {
    if mode == E4Bit then FourBitInitSeq else EightBitInitSeq
  }

  /** The calls HD44780_Init makes after setting DDRB (its comments cite
      Figure 24 of the HD44780U datasheet): 15 ms, three function-set
      attempts with 4.1 ms, 100 us and 41 us after them, the 4-bit mode
      switch, then display off, clear and entry mode, each sent as an upper
      and a lower nibble, each followed by 41 us.  The figure's function set
      with line count and font after the mode switch is not among them.
      Init sends instructions only, all in its own bus width, and waits
      15 ms before the first. */
  function InitSchedule(mode: EMode): (s: seq<Step>)
    ensures |s| == 18 && s[0] == Wait(15000)
    ensures forall i :: 0 <= i < |s| ==> !s[i].Data? && (s[i].Instruction? ==> s[i].mode == mode)
  {
    var f := InitSeq(mode);
    // Starts from [] as InitTraceIsRun's call-by-call chain does.
    [] + [Wait(15000)]
    + [Instruction(f, mode)] + [Wait(4100)]
    + [Instruction(f, mode)] + [Wait(100)]
    + [Instruction(f, mode)] + [Wait(41)]
    + [Instruction(FourBitMode, mode)] + [Wait(41)]
    + [Instruction(0x00, mode)] + [Instruction(DispOff, mode)] + [Wait(41)]
    + [Instruction(0x00, mode)] + [Instruction(DispClear, mode)] + [Wait(41)]
    + [Instruction(0x00, mode)] + [Instruction(EntryMode, mode)] + [Wait(41)]
  }

  /** The trace after HD44780_Init, written out call by call from a trace t
      and PORTC = c0: after the first send PORTC is E alone. */
  function InitTraceAfter(t: seq<Event>, c0: bv8, mode: EMode): seq<Event>
  {
    var f := InitSeq(mode);
    var e := Mask(E);
    t + [Delay(15000)]
    + [Transfer(c0, Instruction(f, mode)).event] + [Delay(4100)]
    + [Transfer(e, Instruction(f, mode)).event] + [Delay(100)]
    + [Transfer(e, Instruction(f, mode)).event] + [Delay(41)]
    + [Transfer(e, Instruction(FourBitMode, mode)).event] + [Delay(41)]
    + [Transfer(e, Instruction(0x00, mode)).event] + [Transfer(e, Instruction(DispOff, mode)).event] + [Delay(41)]
    + [Transfer(e, Instruction(0x00, mode)).event] + [Transfer(e, Instruction(DispClear, mode)).event] + [Delay(41)]
    + [Transfer(e, Instruction(0x00, mode)).event] + [Transfer(e, Instruction(EntryMode, mode)).event] + [Delay(41)]
  }

  /** The driver's registers and what they have shown. */
  class Lcd {
    const dataPort: Register   // HD44780_PORT_DB = PORTB
    const dataDir: Register    // HD44780_DDR_DB = DDRB
    const ctrlPort: Register   // HD44780_PORT_E = HD44780_PORT_RS = PORTC
    ghost var trace: seq<Event>

    /** The three registers are distinct. */
    ghost predicate Valid()
    {
      dataPort != ctrlPort && dataPort != dataDir && ctrlPort != dataDir
    }

    constructor (portB: bv8, portC: bv8, ddrB: bv8)
      ensures Valid()
      ensures fresh(dataPort) && fresh(dataDir) && fresh(ctrlPort)
      ensures dataPort.value == portB && ctrlPort.value == portC && dataDir.value == ddrB
      ensures trace == []
    {
      dataPort := new Register(portB);
      dataDir := new Register(ddrB);
      ctrlPort := new Register(portC);
      trace := [];
    }

    /** HD44780_SendUppNibble: the four CLRBITs zero the whole port, then
        DB7..DB4 follow bits 7..4 of the data. */
    method SendUppNibble(data: bv8)
      modifies dataPort
      ensures dataPort.value == data & 0xF0
    {
      dataPort.ClrBit(DB7);
      dataPort.ClrBit(DB6);
      dataPort.ClrBit(DB5);
      dataPort.ClrBit(DB4);
      dataPort.SetIfBitInDataSet(DB7, data, BIT7);
      dataPort.SetIfBitInDataSet(DB6, data, BIT6);
      dataPort.SetIfBitInDataSet(DB5, data, BIT5);
      dataPort.SetIfBitInDataSet(DB4, data, BIT4);
    }

    /** HD44780_SendLowNibble: the four CLRBITs zero the whole port, then
        DB3..DB0 follow bits 3..0 of the data. */
    method SendLowNibble(data: bv8)
      modifies dataPort
      ensures dataPort.value == data & 0x0F
    {
      dataPort.ClrBit(DB3);
      dataPort.ClrBit(DB2);
      dataPort.ClrBit(DB1);
      dataPort.ClrBit(DB0);
      dataPort.SetIfBitInDataSet(DB3, data, BIT3);
      dataPort.SetIfBitInDataSet(DB2, data, BIT2);
      dataPort.SetIfBitInDataSet(DB1, data, BIT1);
      dataPort.SetIfBitInDataSet(DB0, data, BIT0);
    }

    /** HD44780_PulseE: raises E (one strobe is shown), then CLRBIT on E,
        which leaves E high and every other bit of PORTC, RS included, 0. */
    method PulseE()
      requires Valid()
      modifies ctrlPort, this`trace
      ensures ctrlPort.value == Mask(E)
      ensures trace == old(trace) + [Strobe(dataPort.value, SetBitValue(old(ctrlPort.value), E),
                                         old(ctrlPort.value) & Mask(E) == 0)]
    {
      ctrlPort.SetBit(E);
      // _delay_us(0.5): the hold, shown as part of the strobe
      trace := trace + [Strobe(dataPort.value, ctrlPort.value, old(ctrlPort.value) & Mask(E) == 0)];
      ctrlPort.ClrBit(E);
    }

    /** HD44780_SendNibbles: one upper-nibble write of the byte shifted by
        the mode, in 8-bit mode two more nibble writes, then one E pulse. */
    method SendNibbles(data: bv8, mode: EMode)
      requires Valid()
      modifies dataPort, ctrlPort, this`trace
      ensures dataPort.value == FrameOnBus(data, mode)
      ensures ctrlPort.value == Mask(E)
      ensures trace == old(trace) + [Strobe(FrameOnBus(data, mode), SetBitValue(old(ctrlPort.value), E),
                                         old(ctrlPort.value) & Mask(E) == 0)]
    {
      SendUppNibble(data << mode.Shift());
      if mode == E8Bit {
        SendUppNibble(data & 0xF0);
        SendLowNibble(data & 0x0F);
      }
      PulseE();
    }

    /** HD44780_SendInstruction: CLRBIT on RS (which keeps RS and drops E),
        then SendNibbles.  The strobe carries the RS found on entry; PORTC
        ends as E alone. */
    method SendInstruction(data: bv8, mode: EMode)
      requires Valid()
      modifies dataPort, ctrlPort, this`trace
      ensures dataPort.value == FrameOnBus(data, mode)
      ensures ctrlPort.value == Transfer(old(ctrlPort.value), Instruction(data, mode)).ctrl
      ensures trace == old(trace) + [Transfer(old(ctrlPort.value), Instruction(data, mode)).event]
    {
      ctrlPort.ClrBit(RS);
      SendNibbles(data, mode);
    }

    /** HD44780_SendData, with the bus width as a parameter: SETBIT on RS,
        SendNibbles, CLRBIT on RS.  RS is high at the strobe; PORTC ends 0. */
    method SendData(data: bv8, mode: EMode)
      requires Valid()
      modifies dataPort, ctrlPort, this`trace
      ensures dataPort.value == FrameOnBus(data, mode)
      ensures ctrlPort.value == Transfer(old(ctrlPort.value), Data(data, mode)).ctrl
      ensures trace == old(trace) + [Transfer(old(ctrlPort.value), Data(data, mode)).event]
    {
      ctrlPort.SetBit(RS);
      SendNibbles(data, mode);
      ctrlPort.ClrBit(RS);
    }

    /** _delay_us(us); _delay_ms(ms) is DelayUs(1000 * ms). */
    method DelayUs(us: nat)
      modifies this`trace
      ensures trace == old(trace) + [Delay(us)]
    {
      trace := trace + [Delay(us)];
    }

    /** HD44780_Init: DDRB bits DB7..DB4 (and DB3..DB0 in 8-bit mode) become
        outputs, the other DDRB bits stay; then the calls of InitSchedule,
        which leave PORTC as E alone and PORTB as the last frame sent, the
        lower nibble of entry mode. */
    method Init(mode: EMode)
      requires Valid()
      modifies dataDir, dataPort, ctrlPort, this`trace
      ensures dataDir.value == old(dataDir.value) | (if mode == E4Bit then 0xF0 else 0xFF)
      ensures dataPort.value == FrameOnBus(EntryMode, mode)
      ensures ctrlPort.value == Run(old(ctrlPort.value), InitSchedule(mode)).ctrl == Mask(E)
      ensures trace == old(trace) + Run(old(ctrlPort.value), InitSchedule(mode)).events
    {
      SetDataDirection(mode);
      SendInitSequence(mode);
    }

    /** The first part of HD44780_Init: SETBIT on DDRB for DB7..DB4, and for
        DB3..DB0 in 8-bit mode. */
    method SetDataDirection(mode: EMode)
      modifies dataDir
      ensures dataDir.value == old(dataDir.value) | (if mode == E4Bit then 0xF0 else 0xFF)
    {
      dataDir.SetBit(DB7);
      dataDir.SetBit(DB6);
      dataDir.SetBit(DB5);
      dataDir.SetBit(DB4);
      if mode == E8Bit {
        dataDir.SetBit(DB3);
        dataDir.SetBit(DB2);
        dataDir.SetBit(DB1);
        dataDir.SetBit(DB0);
      }
    }

    /** The rest of HD44780_Init: the delays and the ten instructions of
        InitSchedule. */
    method SendInitSequence(mode: EMode)
      requires Valid()
      modifies dataPort, ctrlPort, this`trace
      ensures dataPort.value == FrameOnBus(EntryMode, mode)
      ensures ctrlPort.value == Run(old(ctrlPort.value), InitSchedule(mode)).ctrl == Mask(E)
      ensures trace == old(trace) + Run(old(ctrlPort.value), InitSchedule(mode)).events
    {
      var f := InitSeq(mode);
      DelayUs(15 * 1000);
      SendInstruction(f, mode);
      DelayUs(4100);
      SendInstruction(f, mode);
      DelayUs(100);
      SendInstruction(f, mode);
      DelayUs(41);
      SendInstruction(FourBitMode, mode);
      DelayUs(41);
      SendInstruction(0x00, mode);
      SendInstruction(DispOff, mode);
      DelayUs(41);
      SendInstruction(0x00, mode);
      SendInstruction(DispClear, mode);
      DelayUs(41);
      SendInstruction(0x00, mode);
      SendInstruction(EntryMode, mode);
      DelayUs(41);
      assert trace == InitTraceAfter(old(trace), old(ctrlPort.value), mode);
      InitTraceIsRun(old(trace), old(ctrlPort.value), mode);
    }
  }

  /** Replaying one more call extends the replay by that call's event. */
  lemma RunSnoc(c0: bv8, steps: seq<Step>, step: Step)
    ensures Run(c0, steps + [step]).ctrl == Transfer(Run(c0, steps).ctrl, step).ctrl
    ensures Run(c0, steps + [step]).events == Run(c0, steps).events + [Transfer(Run(c0, steps).ctrl, step).event]
  {
  }

  /** One more call behind a prefix t: if u is t followed by the replay of
      s, which leaves PORTC = c, then u followed by the call's event is t
      followed by the replay of s and the call. */
  lemma RunSnocAfter(t: seq<Event>, c0: bv8, s: seq<Step>, u: seq<Event>, step: Step, c: bv8)
    returns (s': seq<Step>, u': seq<Event>)
    requires u == t + Run(c0, s).events && Run(c0, s).ctrl == c
    ensures s' == s + [step] && u' == u + [Transfer(c, step).event]
    ensures u' == t + Run(c0, s').events && Run(c0, s').ctrl == Transfer(c, step).ctrl
  {
    s' := s + [step];
    u' := u + [Transfer(c, step).event];
    RunSnoc(c0, s, step);
  }

  /** Init's trace written out call by call is the replay of InitSchedule,
      which leaves PORTC as E alone. */
  lemma InitTraceIsRun(t: seq<Event>, c0: bv8, mode: EMode)
    ensures InitTraceAfter(t, c0, mode) == t + Run(c0, InitSchedule(mode)).events
    ensures Run(c0, InitSchedule(mode)).ctrl == Mask(E)
  {
    var f := InitSeq(mode);
    var s: seq<Step> := [];
    var u: seq<Event> := t;
    assert u == t + Run(c0, s).events;
    s, u := RunSnocAfter(t, c0, s, u, Wait(15000), c0);
    s, u := RunSnocAfter(t, c0, s, u, Instruction(f, mode), c0);
    s, u := RunSnocAfter(t, c0, s, u, Wait(4100), Mask(E));
    s, u := RunSnocAfter(t, c0, s, u, Instruction(f, mode), Mask(E));
    s, u := RunSnocAfter(t, c0, s, u, Wait(100), Mask(E));
    s, u := RunSnocAfter(t, c0, s, u, Instruction(f, mode), Mask(E));
    s, u := RunSnocAfter(t, c0, s, u, Wait(41), Mask(E));
    s, u := RunSnocAfter(t, c0, s, u, Instruction(FourBitMode, mode), Mask(E));
    s, u := RunSnocAfter(t, c0, s, u, Wait(41), Mask(E));
    s, u := RunSnocAfter(t, c0, s, u, Instruction(0x00, mode), Mask(E));
    s, u := RunSnocAfter(t, c0, s, u, Instruction(DispOff, mode), Mask(E));
    s, u := RunSnocAfter(t, c0, s, u, Wait(41), Mask(E));
    s, u := RunSnocAfter(t, c0, s, u, Instruction(0x00, mode), Mask(E));
    s, u := RunSnocAfter(t, c0, s, u, Instruction(DispClear, mode), Mask(E));
    s, u := RunSnocAfter(t, c0, s, u, Wait(41), Mask(E));
    s, u := RunSnocAfter(t, c0, s, u, Instruction(0x00, mode), Mask(E));
    s, u := RunSnocAfter(t, c0, s, u, Instruction(EntryMode, mode), Mask(E));
    s, u := RunSnocAfter(t, c0, s, u, Wait(41), Mask(E));
    assert s == InitSchedule(mode);
    assert u == InitTraceAfter(t, c0, mode);
  }

  /** Every completed send leaves RS low, so from a PORTC with RS low every
      call shows what it should: each instruction is strobed with RS = 0,
      each data byte with RS = 1, each with E high and the routine's frame. */
  lemma {:induction false} RegisterSelect(c0: bv8, steps: seq<Step>)
    requires c0 & Mask(RS) == 0
    ensures forall i :: 0 <= i < |steps| ==> Emits(steps[i], Run(c0, steps).events[i])
  {
    if steps != [] {
      var n := |steps| - 1;
      RegisterSelect(c0, steps[..n]);
      var prev := Run(c0, steps[..n]);
      forall i | 0 <= i < |steps|
        ensures Emits(steps[i], Run(c0, steps).events[i])
      {
        if i < n {
          assert steps[i] == steps[..n][i];
        }
      }
    }
  }

  /** Whatever PORTC holds, every send of any sequence of calls shows one
      strobe, of its own frame. */
  lemma {:induction false} RunFrames(c0: bv8, steps: seq<Step>)
    ensures forall i :: 0 <= i < |steps| && !steps[i].Wait? ==>
              Run(c0, steps).events[i].Strobe?
              && Run(c0, steps).events[i].db == FrameOnBus(steps[i].data, steps[i].mode)
  {
    if steps != [] {
      var n := |steps| - 1;
      RunFrames(c0, steps[..n]);
      forall i | 0 <= i < n && !steps[i].Wait?
        ensures Run(c0, steps).events[i].Strobe?
        ensures Run(c0, steps).events[i].db == FrameOnBus(steps[i].data, steps[i].mode)
      {
        assert steps[i] == steps[..n][i];
      }
    }
  }

  /** In 4-bit mode a byte sent as two instructions, its upper nibble then
      its lower one (as HD44780_Init sends display off, clear and entry
      mode), shows two frames on DB7..DB4 that assemble back to the byte. */
  lemma FourBitRoundTrip(c0: bv8, b: bv8)
    ensures var r := Run(c0, [Instruction(b >> 4, E4Bit), Instruction(b & 0x0F, E4Bit)]);
            r.events[0].Strobe? && r.events[1].Strobe? && Assemble(r.events[0].db, r.events[1].db) == b
  {
  }

  /** In 8-bit mode, as written, a frame carries the byte exactly when the
      byte's upper nibble is 0: SendLowNibble's CLRBITs wipe the upper
      nibble that SendUppNibble wrote. */
  lemma FrameContents(d: bv8)
    ensures FrameOnBus(d, E8Bit) == d <==> d & 0xF0 == 0
  {
  }

  /** As written, the byte 0x41 ('A') sent as data in 8-bit mode shows 0x01
      on the bus. */
  lemma EightBitDropsUpperNibble(c0: bv8)
    ensures Transfer(c0, Data(0x41, E8Bit)).event.db == 0x01
  {
  }

  /** As written, PulseE leaves E high, so data sent after an instruction is
      strobed with no rising edge of E: E is already high when SendData
      raises it. */
  lemma NoRisingEdgeAfterInstruction(c0: bv8, d: bv8, m: EMode, x: bv8, n: EMode)
    ensures var r := Run(c0, [Instruction(d, m), Data(x, n)]);
            r.events[1].Strobe? && !r.events[1].rising && r.events[1].ctrl & Mask(E) != 0
  {
  }

  /** As written, the leading CLRBIT of SendInstruction cannot lower RS: an
      instruction sent while PORTC has RS high is strobed with RS = 1, that
      is, as a data write. */
  lemma InstructionStrobedAsData(d: bv8, m: EMode)
    ensures !Emits(Instruction(d, m), Transfer(Mask(RS), Instruction(d, m)).event)
    ensures Transfer(Mask(RS), Instruction(d, m)).event.ctrl & Mask(RS) != 0
  {
  }

  /** InitTraceAfter from an empty trace, with each send's event written
      out. */
  lemma InitTraceFlat(c0: bv8, mode: EMode)
    ensures var f := InitSeq(mode);
            InitTraceAfter([], c0, mode)
            == [Delay(15000), Strobe(FrameOnBus(f, mode), (c0 & Mask(RS)) | Mask(E), true), Delay(4100),
               Strobe(FrameOnBus(f, mode), Mask(E), true), Delay(100), Strobe(FrameOnBus(f, mode), Mask(E), true),
               Delay(41), Strobe(FrameOnBus(FourBitMode, mode), Mask(E), true), Delay(41),
               Strobe(FrameOnBus(0x00, mode), Mask(E), true), Strobe(FrameOnBus(DispOff, mode), Mask(E), true), Delay(41),
               Strobe(FrameOnBus(0x00, mode), Mask(E), true), Strobe(FrameOnBus(DispClear, mode), Mask(E), true), Delay(41),
               Strobe(FrameOnBus(0x00, mode), Mask(E), true), Strobe(FrameOnBus(EntryMode, mode), Mask(E), true), Delay(41)]
  {
  }

  /** The events of HD44780_Init from PORTC = c0, one by one: ten rising
      strobes of the instructions' frames with E high, RS low but on the
      first (which keeps the RS it found), and the delays between them. */
  lemma InitEvents(c0: bv8, mode: EMode)
    ensures var f := InitSeq(mode);
            Run(c0, InitSchedule(mode)).events
            == [Delay(15000), Strobe(FrameOnBus(f, mode), (c0 & Mask(RS)) | Mask(E), true), Delay(4100),
               Strobe(FrameOnBus(f, mode), Mask(E), true), Delay(100), Strobe(FrameOnBus(f, mode), Mask(E), true),
               Delay(41), Strobe(FrameOnBus(FourBitMode, mode), Mask(E), true), Delay(41),
               Strobe(FrameOnBus(0x00, mode), Mask(E), true), Strobe(FrameOnBus(DispOff, mode), Mask(E), true), Delay(41),
               Strobe(FrameOnBus(0x00, mode), Mask(E), true), Strobe(FrameOnBus(DispClear, mode), Mask(E), true), Delay(41),
               Strobe(FrameOnBus(0x00, mode), Mask(E), true), Strobe(FrameOnBus(EntryMode, mode), Mask(E), true), Delay(41)]
  {
    InitTraceIsRun([], c0, mode);
    InitTraceFlat(c0, mode);
    assert [] + Run(c0, InitSchedule(mode)).events == Run(c0, InitSchedule(mode)).events;
  }

  /** What HD44780_Init shows on the bus in 4-bit mode: 0011 on DB7..DB4
      three times, then 0010, then display off, clear and entry mode as
      nibble pairs (0x00 and 0x80 assemble to display off, 0x00 and 0x10 to
      clear, 0x00 and 0x60 to entry mode). */
  lemma InitBusFourBit(c0: bv8)
    ensures Run(c0, InitSchedule(E4Bit)).events
            == [Delay(15000), Strobe(0x30, (c0 & Mask(RS)) | Mask(E), true), Delay(4100),
               Strobe(0x30, Mask(E), true), Delay(100), Strobe(0x30, Mask(E), true),
               Delay(41), Strobe(0x20, Mask(E), true), Delay(41),
               Strobe(0x00, Mask(E), true), Strobe(0x80, Mask(E), true), Delay(41),
               Strobe(0x00, Mask(E), true), Strobe(0x10, Mask(E), true), Delay(41),
               Strobe(0x00, Mask(E), true), Strobe(0x60, Mask(E), true), Delay(41)]
    ensures Assemble(0x00, 0x80) == DispOff && Assemble(0x00, 0x10) == DispClear
            && Assemble(0x00, 0x60) == EntryMode
  {
    InitEvents(c0, E4Bit);
  }

  /** What HD44780_Init shows on the bus in 8-bit mode, as written: only the
      low nibble of each instruction reaches DB3..DB0 and DB7..DB4 stay 0, so
      the three function-set attempts show 0x00 instead of 0x30. */
  lemma InitBusEightBit(c0: bv8)
    ensures Run(c0, InitSchedule(E8Bit)).events
            == [Delay(15000), Strobe(0x00, (c0 & Mask(RS)) | Mask(E), true), Delay(4100),
               Strobe(0x00, Mask(E), true), Delay(100), Strobe(0x00, Mask(E), true),
               Delay(41), Strobe(0x02, Mask(E), true), Delay(41),
               Strobe(0x00, Mask(E), true), Strobe(0x08, Mask(E), true), Delay(41),
               Strobe(0x00, Mask(E), true), Strobe(0x01, Mask(E), true), Delay(41),
               Strobe(0x00, Mask(E), true), Strobe(0x06, Mask(E), true), Delay(41)]
  {
    InitEvents(c0, E8Bit);
  }
}
