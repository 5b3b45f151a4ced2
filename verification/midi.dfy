/*
 * The MIDI receiver of src/sw/midi/midi.c: rxMidiMsg reads a status byte
 * into the global MidiBuffer, dispatches on its command nibble, and each
 * handler blocks in readMidi for its data bytes before writing the synth
 * registers (Note On/Off, controllers 41..46) or only logging.
 *
 * Every handler is proved against MidiMessages.Parse and
 * MidiMessages.Effect: it takes exactly the bytes Parse says, leaves the
 * bytes of its last read at the start of MidiBuffer, and appends exactly
 * Effect of the message to the synth write log.
 */
module Midi {
  import opened Utils
  import opened MidiDefs
  import opened SynthCtrl
  import opened MidiMessages
  import opened Serial

  /** How a call ends: it returns a status, or it waits forever in readMidi. */
  datatype Outcome = Returned(status: int) | Blocked

  /**
   * The data bytes a message's handler leaves at the start of MidiBuffer:
   * those of its last read, none for a message without data.
   */
  function LastRead(m: Message): (bytes: seq<bv8>)
    ensures |bytes| <= 2
    ensures !m.SysEx? ==> [Encode(m)[0]] + bytes == Encode(m)
  {
    if m.SysEx? then [SYS_EXCL_END] else Encode(m)[1..]
  }

  class MidiReceiver {
    const uart: Uart             // MidiPs
    const buffer: array<bv8>     // MidiBuffer
    const synth: SynthBus        // the synth controller's register space

    predicate Valid()
      reads this, uart
    {
      buffer.Length == MIDI_BUFFER_SIZE && uart.Valid()
    }

    constructor(uart: Uart, synth: SynthBus)
      requires uart.Valid()
      ensures Valid() && fresh(buffer)
      ensures this.uart == uart && this.synth == synth
      ensures buffer[..] == seq(MIDI_BUFFER_SIZE, _ => 0)
    {
      this.uart := uart;
      this.synth := synth;
      buffer := new bv8[MIDI_BUFFER_SIZE](_ => 0);
    }

    /**
     * The handler for `status`, started with the line at `start`, MidiBuffer
     * holding `before` and the synth log at `log`, has done what Parse and
     * Effect say: it took the message's data bytes, left its last read at
     * the start of MidiBuffer and issued the message's writes; or the line
     * ended first and it waits forever, having written nothing.
     */
    predicate Handled(status: bv8, start: nat, before: seq<bv8>, log: seq<Write>, outcome: Outcome)
      reads this, uart, buffer, synth
      requires start <= |uart.input| && |before| == buffer.Length == MIDI_BUFFER_SIZE
    {
      match Parse(status, uart.input[start..])
      case Complete(m, n) =>
        && outcome == Returned(XST_SUCCESS)
        && uart.pos == start + n
        && buffer[..] == LastRead(m) + before[|LastRead(m)|..]
        && synth.log == log + Effect(m)
      case Stalled =>
        && outcome == Blocked
        && uart.pos == |uart.input|
        && synth.log == log
    }

    /**
     * rxMidiMsg: takes one byte (XUartPs_Recv is not blocking: with the line
     * used up MidiBuffer[0] keeps its old value and is processed again),
     * splits it into command and channel and runs the command's handler.
     */
    method RxMidiMsg() returns (outcome: Outcome)
      requires Valid()
      modifies uart, buffer, synth
      ensures Valid()
      ensures old(uart.Pending()) > 0 ==>
        Handled(uart.input[old(uart.pos)], old(uart.pos) + 1,
          old(buffer[..])[0 := uart.input[old(uart.pos)]], old(synth.log), outcome)
      ensures old(uart.Pending()) == 0 ==>
        Handled(old(buffer[0]), old(uart.pos), old(buffer[..]), old(synth.log), outcome)
    {
      var _ := uart.Recv(buffer, 0, 1);
      assert old(uart.Pending()) > 0 ==> buffer[..] == old(buffer[..])[0 := uart.input[old(uart.pos)]];
      assert old(uart.Pending()) == 0 ==> buffer[..] == old(buffer[..]);
      var status := buffer[0];
      outcome := Dispatch(status);
    }

    /** The switch of rxMidiMsg on the command nibble of `status`. */
    method Dispatch(status: bv8) returns (outcome: Outcome)
      requires Valid() && buffer[0] == status
      modifies uart, buffer, synth
      ensures Valid()
      ensures Handled(status, old(uart.pos), old(buffer[..]), old(synth.log), outcome)
    {
      var cmd := Command(status);
      var ch := Channel(status);
      StatusSplit(status);
      if cmd == NOTE_OFF {
        assert status == NOTE_OFF | ch;
        outcome := NoteOff(ch);
      } else if cmd == NOTE_ON {
        assert status == NOTE_ON | ch;
        outcome := NoteOn(ch);
      } else if cmd == POLY_PRESSURE {
        assert status == POLY_PRESSURE | ch;
        outcome := PolyPressure(ch);
      } else if cmd == CONTROL_CHANGE {
        assert status == CONTROL_CHANGE | ch;
        outcome := ControlChange(ch);
      } else if cmd == PROG_CHANGE {
        assert status == PROG_CHANGE | ch;
        outcome := ProgChange(ch);
      } else if cmd == CH_PRESSURE {
        assert status == CH_PRESSURE | ch;
        outcome := ChannelPressure(ch);
      } else if cmd == PITCH_BEND {
        assert status == PITCH_BEND | ch;
        outcome := PitchBend(ch);
      } else if cmd == SYS_CMD {
        assert status == SYS_CMD | ch;
        outcome := SystemCommon(ch);
      } else {
        // default: the byte is only logged
        outcome := Returned(XST_SUCCESS);
        OnlyNotesAndWaveControlsWrite(MessageOf(status, []));
        NothingToRead(status, uart.pos, buffer[..], synth.log);
      }
    }

    /** note_on(ch): MidiNoteOnOff(ch, ON). */
    method NoteOn(ch: bv8) returns (outcome: Outcome)
      requires Valid() && ch < 16
      modifies uart, buffer, synth
      ensures Valid()
      ensures Handled(NOTE_ON | ch, old(uart.pos), old(buffer[..]), old(synth.log), outcome)
    {
      outcome := NoteOnOff(ch, ON);
    }

    /** note_off(ch): MidiNoteOnOff(ch, OFF). */
    method NoteOff(ch: bv8) returns (outcome: Outcome)
      requires Valid() && ch < 16
      modifies uart, buffer, synth
      ensures Valid()
      ensures Handled(NOTE_OFF | ch, old(uart.pos), old(buffer[..]), old(synth.log), outcome)
    {
      outcome := NoteOnOff(ch, OFF);
    }

    /**
     * MidiNoteOnOff: reads key and velocity, then plays the key at that
     * velocity if `onOff` is non-zero and stops it otherwise.
     */
    method NoteOnOff(ch: bv8, onOff: bv8) returns (outcome: Outcome)
      requires Valid() && ch < 16
      modifies uart, buffer, synth
      ensures Valid()
      ensures Handled(if onOff != OFF then NOTE_ON | ch else NOTE_OFF | ch,
        old(uart.pos), old(buffer[..]), old(synth.log), outcome)
    {
      ghost var status := if onOff != OFF then NOTE_ON | ch else NOTE_OFF | ch;
      var complete := ReadMidi(uart, buffer, 2);
      if !complete {
        StalledRead(status, old(uart.pos), old(buffer[..]), synth.log);
        return Blocked;
      }
      var key, vel := buffer[0], buffer[1];
      assert MessageOf(status, uart.input[old(uart.pos)..uart.pos]) ==
        if onOff != OFF then Message.NoteOn(ch, key, vel) else Message.NoteOff(ch, key, vel);
      if onOff != OFF {
        synth.SynthWrite(PlayNote(key, vel as bv32));
      } else {
        synth.SynthWrite(StopNote(key));
      }
      outcome := Returned(XST_SUCCESS);
      CompleteRead(status, old(uart.pos), old(buffer[..]), old(synth.log));
    }

    /** MidiPolyPressure: reads key and pressure and only logs them. */
    method PolyPressure(ch: bv8) returns (outcome: Outcome)
      requires Valid() && ch < 16
      modifies uart, buffer
      ensures Valid()
      ensures Handled(POLY_PRESSURE | ch, old(uart.pos), old(buffer[..]), synth.log, outcome)
    {
      outcome := ReadAndLog(POLY_PRESSURE | ch);
    }

    /** The controller switch of MidiControlChange: the synth writes `control` selects. */
    method ControlWrites(control: bv8, value: bv8)
      modifies synth
      ensures synth.log == old(synth.log) + ControlEffect(control, value)
    {
      if control == 41 {
        synth.SynthWrite(SetWaveAmp(SINE_WAVE, (value >> 2) as bv32));
      } else if control == 42 {
        synth.SynthWrite(SetWaveAmp(TRI_WAVE, (value >> 2) as bv32));
      } else if control == 43 {
        synth.SynthWrite(SetWaveAmp(SAW_WAVE, (value >> 2) as bv32));
      } else if control == 44 {
        synth.SynthWrite(SetWaveAmp(RAMP_WAVE, (value >> 2) as bv32));
      } else if control == 45 {
        synth.SynthWrite(SetWaveAmp(PULSE_WAVE, (value >> 2) as bv32));
      } else if control == 46 {
        synth.SynthWrite(SetPulseWidth((value as bv32) << 9));
      }
    }

    /**
     * MidiControlChange: reads controller and value; controllers 41..45
     * set a waveform amplitude to value >> 2, 46 the pulse width to
     * value << 9, and every other controller is only logged.
     */
    method ControlChange(ch: bv8) returns (outcome: Outcome)
      requires Valid() && ch < 16
      modifies uart, buffer, synth
      ensures Valid()
      ensures Handled(CONTROL_CHANGE | ch, old(uart.pos), old(buffer[..]), old(synth.log), outcome)
    {
      var complete := ReadMidi(uart, buffer, 2);
      if !complete {
        StalledRead(CONTROL_CHANGE | ch, old(uart.pos), old(buffer[..]), synth.log);
        return Blocked;
      }
      var control, value := buffer[0], buffer[1];
      assert MessageOf(CONTROL_CHANGE | ch, uart.input[old(uart.pos)..uart.pos]) ==
        Message.ControlChange(ch, control, value);
      ControlWrites(control, value);
      outcome := Returned(XST_SUCCESS);
      CompleteRead(CONTROL_CHANGE | ch, old(uart.pos), old(buffer[..]), old(synth.log));
    }

    /** MidiProgChange: reads the program number and only logs it. */
    method ProgChange(ch: bv8) returns (outcome: Outcome)
      requires Valid() && ch < 16
      modifies uart, buffer
      ensures Valid()
      ensures Handled(PROG_CHANGE | ch, old(uart.pos), old(buffer[..]), synth.log, outcome)
    {
      outcome := ReadAndLog(PROG_CHANGE | ch);
    }

    /** MidiChannelPressure: reads the pressure and only logs it. */
    method ChannelPressure(ch: bv8) returns (outcome: Outcome)
      requires Valid() && ch < 16
      modifies uart, buffer
      ensures Valid()
      ensures Handled(CH_PRESSURE | ch, old(uart.pos), old(buffer[..]), synth.log, outcome)
    {
      outcome := ReadAndLog(CH_PRESSURE | ch);
    }

    /** MidiPitchBend: reads lsb and msb and logs PitchBendValue of them. */
    method PitchBend(ch: bv8) returns (outcome: Outcome)
      requires Valid() && ch < 16
      modifies uart, buffer
      ensures Valid()
      ensures Handled(PITCH_BEND | ch, old(uart.pos), old(buffer[..]), synth.log, outcome)
    {
      outcome := ReadAndLog(PITCH_BEND | ch);
    }

    /**
     * MidiMsgSystemCommon(code): dispatches on the low nibble of a 0xF_
     * status. System Exclusive reads up to 0xF7, Quarter Frame and Song
     * Select read one byte, Song Position two, and the rest read nothing.
     * A System Exclusive entered with MidiBuffer[0] already 0xF7 returns
     * at once.
     */
    method SystemCommon(code: bv8) returns (outcome: Outcome)
      requires Valid() && code < 16
      modifies uart, buffer
      ensures Valid()
      ensures code == SYS_EXCL_START && old(buffer[0]) == SYS_EXCL_END ==>
        outcome == Returned(XST_SUCCESS) && uart.pos == old(uart.pos) && buffer[..] == old(buffer[..])
      ensures !(code == SYS_EXCL_START && old(buffer[0]) == SYS_EXCL_END) ==>
        Handled(SYS_CMD | code, old(uart.pos), old(buffer[..]), synth.log, outcome)
    {
      if code == SYS_EXCL_START {
        outcome := SystemExclusive();
        if old(buffer[0]) != SYS_EXCL_END {
          SysExHandled(old(uart.pos), old(buffer[..]), outcome);
        }
      } else {
        // Quarter Frame, Song Position and Song Select read their data;
        // tune request, clock, start, continue, stop, sensing, reset and
        // the undefined codes read nothing; all are only logged
        outcome := ReadAndLog(SYS_CMD | code);
      }
    }

    /**
     * The System Exclusive loop: reads one byte at a time until
     * MidiBuffer[0] holds SYS_EXCL_END. Entered with some other byte there,
     * it takes the bytes up to and including the first 0xF7 and leaves that
     * 0xF7 in MidiBuffer[0], or, when no 0xF7 follows, drains the line and
     * waits forever.
     */
    method SystemExclusive() returns (outcome: Outcome)
      requires Valid()
      modifies uart, buffer
      ensures Valid() && (outcome == Blocked || outcome == Returned(XST_SUCCESS))
      ensures old(buffer[0]) == SYS_EXCL_END ==>
        outcome == Returned(XST_SUCCESS) && uart.pos == old(uart.pos) && buffer[..] == old(buffer[..])
      ensures old(buffer[0]) != SYS_EXCL_END ==>
        forall k :: old(uart.pos) <= k < uart.pos - 1 ==> uart.input[k] != SYS_EXCL_END
      ensures old(buffer[0]) != SYS_EXCL_END && outcome.Returned? ==>
        && old(uart.pos) < uart.pos && uart.input[uart.pos - 1] == SYS_EXCL_END
        && buffer[..] == [SYS_EXCL_END] + old(buffer[..])[1..]
      ensures old(buffer[0]) != SYS_EXCL_END && outcome.Blocked? ==>
        && uart.pos == |uart.input|
        && (uart.pos > old(uart.pos) ==> uart.input[uart.pos - 1] != SYS_EXCL_END)
    {
      ghost var start, before := uart.pos, buffer[..];
      while buffer[0] != SYS_EXCL_END
        invariant Valid() && start <= uart.pos
        invariant uart.pos == start ==> buffer[..] == before
        invariant before[0] == SYS_EXCL_END ==> uart.pos == start
        invariant uart.pos > start ==> buffer[0] == uart.input[uart.pos - 1]
        invariant forall k :: start <= k < uart.pos - 1 ==> uart.input[k] != SYS_EXCL_END
        invariant buffer[1..] == before[1..]
        decreases uart.Pending()
      {
        ghost var pos := uart.pos;
        var complete := ReadMidi(uart, buffer, 1);
        if !complete {
          assert uart.pos == pos == |uart.input|;
          return Blocked;
        }
      }
      outcome := Returned(XST_SUCCESS);
      if uart.pos > start {
        assert buffer[..] == [SYS_EXCL_END] + before[1..];
      }
    }

    /** What the System Exclusive loop does is what Parse and Effect say of a 0xF0 status. */
    lemma SysExHandled(start: nat, before: seq<bv8>, outcome: Outcome)
      requires Valid() && start <= uart.pos && |before| == MIDI_BUFFER_SIZE
      requires outcome == Blocked || outcome == Returned(XST_SUCCESS)
      requires forall k :: start <= k < uart.pos - 1 ==> uart.input[k] != SYS_EXCL_END
      requires outcome.Returned? ==>
        && start < uart.pos && uart.input[uart.pos - 1] == SYS_EXCL_END
        && buffer[..] == [SYS_EXCL_END] + before[1..]
      requires outcome.Blocked? ==>
        && uart.pos == |uart.input|
        && (uart.pos > start ==> uart.input[uart.pos - 1] != SYS_EXCL_END)
      ensures Handled(SYS_CMD | SYS_EXCL_START, start, before, synth.log, outcome)
    {
      if outcome.Blocked? {
        assert forall k :: start <= k < |uart.input| ==> uart.input[k] != SYS_EXCL_END;
        SysExUnterminated(uart.input, start);
      } else {
        SysExTerminated(uart.input, start, uart.pos);
      }
    }

    /**
     * The handlers that only log: read the data bytes of `status`, and
     * return.
     */
    method ReadAndLog(status: bv8) returns (outcome: Outcome)
      requires Valid() && status != SYS_CMD | SYS_EXCL_START
      requires Command(status) !in {NOTE_OFF, NOTE_ON, CONTROL_CHANGE}
      modifies uart, buffer
      ensures Valid()
      ensures Handled(status, old(uart.pos), old(buffer[..]), synth.log, outcome)
    {
      var n := DataLength(status);
      if n == 0 {
        outcome := Returned(XST_SUCCESS);
        OnlyNotesAndWaveControlsWrite(MessageOf(status, []));
        NothingToRead(status, uart.pos, buffer[..], synth.log);
        return;
      }
      var complete := ReadMidi(uart, buffer, n);
      if !complete {
        StalledRead(status, old(uart.pos), old(buffer[..]), synth.log);
        return Blocked;
      }
      outcome := Returned(XST_SUCCESS);
      OnlyNotesAndWaveControlsWrite(MessageOf(status, uart.input[old(uart.pos)..uart.pos]));
      CompleteRead(status, old(uart.pos), old(buffer[..]), synth.log);
    }

    /** A complete read of the data bytes of `status` is what Parse describes. */
    lemma CompleteRead(status: bv8, start: nat, before: seq<bv8>, log: seq<Write>)
      requires status != SYS_CMD | SYS_EXCL_START && |before| == buffer.Length == MIDI_BUFFER_SIZE
      requires uart.pos == start + DataLength(status) <= |uart.input|
      requires buffer[..] == uart.input[start..uart.pos] + before[DataLength(status)..]
      requires synth.log == log + Effect(MessageOf(status, uart.input[start..uart.pos]))
      ensures Handled(status, start, before, log, Returned(XST_SUCCESS))
    {
      var n, data := DataLength(status), uart.input[start..uart.pos];
      assert uart.input[start..][..n] == data;
      EncodeMessageOf(status, data);
      assert LastRead(MessageOf(status, data)) == data;
    }

    /** A read the line cannot finish is what Parse describes. */
    lemma StalledRead(status: bv8, start: nat, before: seq<bv8>, log: seq<Write>)
      requires status != SYS_CMD | SYS_EXCL_START && |before| == buffer.Length == MIDI_BUFFER_SIZE
      requires start <= |uart.input| < start + DataLength(status)
      requires uart.pos == |uart.input| && synth.log == log
      ensures Handled(status, start, before, log, Blocked)
    {
    }

    /** A status without data bytes is complete as it stands. */
    lemma NothingToRead(status: bv8, start: nat, before: seq<bv8>, log: seq<Write>)
      requires status != SYS_CMD | SYS_EXCL_START && DataLength(status) == 0
      requires start == uart.pos <= |uart.input| && before == buffer[..] && log == synth.log
      requires buffer.Length == MIDI_BUFFER_SIZE
      requires Effect(MessageOf(status, [])) == []
      ensures Handled(status, start, before, log, Returned(XST_SUCCESS))
    {
      EncodeMessageOf(status, []);
      assert uart.input[start..][..0] == [];
    }
  }

  /** The System Exclusive loop stops at the first terminator after `start`. */
  lemma SysExTerminated(input: seq<bv8>, start: nat, end: nat)
    requires start < end <= |input| && input[end - 1] == SYS_EXCL_END
    requires forall k :: start <= k < end - 1 ==> input[k] != SYS_EXCL_END
    ensures SysExLength(input[start..]) == Some(end - start)
  {
    var data := input[start..end];
    SysExLengthOfTerminated(data);
    assert input[start..] == data + input[end..];
    SysExLengthPrefix(data, input[end..]);
  }

  /** With no terminator after `start` the System Exclusive loop never ends. */
  lemma SysExUnterminated(input: seq<bv8>, start: nat)
    requires start <= |input|
    requires forall k :: start <= k < |input| ==> input[k] != SYS_EXCL_END
    ensures SysExLength(input[start..]) == None
  {
    var rest := input[start..];
    assert forall k :: 0 <= k < |rest| ==> rest[k] != SYS_EXCL_END;
  }
}
