/*
 * What one call of rxMidiMsg (src/sw/midi/midi.c:112-154) does with the
 * bytes it reads, as pure functions: the status byte is split into
 * command and channel, the handler for the command takes a fixed number
 * of data bytes (a System Exclusive message: every byte up to 0xF7), and
 * the message turns into at most one synth register write.
 *
 * This is the decoder as the firmware has it: there is no running status
 * and no filtering of real-time bytes, and data bytes are not checked to
 * be below 0x80.
 */
module MidiMessages {
  import opened Utils
  import opened MidiDefs
  import opened SynthCtrl

  /** cmd = MidiBuffer[0] & 0xF0. */
  function Command(status: bv8): (cmd: bv8)
    ensures cmd & 0x0F == 0 && cmd <= status && status - cmd < 16
  {
    status & 0xF0
  }

  /** ch = MidiBuffer[0] & 0x0F. */
  function Channel(status: bv8): (ch: bv8)
    ensures ch < 16 && ch <= status
  {
    status & 0x0F
  }

  /** Command and channel are disjoint halves that together are the status byte. */
  lemma StatusSplit(status: bv8)
    ensures Command(status) | Channel(status) == status
    ensures Command(status) & Channel(status) == 0
    ensures Command(status) + Channel(status) == status
  {
  }

  /** What rxMidiMsg and its handlers take from the line for one status byte. */
  datatype Message =
    | NoteOff(ch: bv8, key: bv8, velocity: bv8)
    | NoteOn(ch: bv8, key: bv8, velocity: bv8)
    | PolyPressure(ch: bv8, key: bv8, pressure: bv8)
    | ControlChange(ch: bv8, control: bv8, value: bv8)
    | ProgramChange(ch: bv8, program: bv8)
    | ChannelPressure(ch: bv8, pressure: bv8)
    | PitchBend(ch: bv8, lsb: bv8, msb: bv8)
    | SysEx(data: seq<bv8>)          // the bytes after 0xF0, up to and including 0xF7
    | QuarterFrame(frame: bv8)
    | SongPosition(lsb: bv8, msb: bv8)
    | SongSelect(song: bv8)
    | SystemOther(code: bv8)         // 0xF4..0xFF: a sub-code that reads nothing
    | Unrecognised(status: bv8)      // a byte below 0x80 where a status was expected

  /** The result of one rxMidiMsg call: the message and the data bytes it took after the status. */
  datatype Parsed = Complete(msg: Message, used: nat) | Stalled

  /** The line bytes that make up a message, status byte first. */
  function Encode(m: Message): (bytes: seq<bv8>)
    ensures |bytes| >= 1
  {
    match m
    case NoteOff(ch, key, velocity) => [NOTE_OFF | ch, key, velocity]
    case NoteOn(ch, key, velocity) => [NOTE_ON | ch, key, velocity]
    case PolyPressure(ch, key, pressure) => [POLY_PRESSURE | ch, key, pressure]
    case ControlChange(ch, control, value) => [CONTROL_CHANGE | ch, control, value]
    case ProgramChange(ch, program) => [PROG_CHANGE | ch, program]
    case ChannelPressure(ch, pressure) => [CH_PRESSURE | ch, pressure]
    case PitchBend(ch, lsb, msb) => [PITCH_BEND | ch, lsb, msb]
    case SysEx(data) => [SYS_CMD | SYS_EXCL_START] + data
    case QuarterFrame(frame) => [SYS_CMD | SYS_QTR_FRAME, frame]
    case SongPosition(lsb, msb) => [SYS_CMD | SYS_POS_PTR, lsb, msb]
    case SongSelect(song) => [SYS_CMD | SYS_SONG_SEL, song]
    case SystemOther(code) => [SYS_CMD | code]
    case Unrecognised(status) => [status]
  }

  /** The messages the decoder can produce. */
  predicate WellFormed(m: Message)
  {
    match m
    case NoteOff(ch, _, _) => ch < 16
    case NoteOn(ch, _, _) => ch < 16
    case PolyPressure(ch, _, _) => ch < 16
    case ControlChange(ch, _, _) => ch < 16
    case ProgramChange(ch, _) => ch < 16
    case ChannelPressure(ch, _) => ch < 16
    case PitchBend(ch, _, _) => ch < 16
    case SysEx(data) => SysExLength(data) == Some(|data|)
    case SystemOther(code) => 4 <= code < 16
    case Unrecognised(status) => status < 0x80
    case _ => true
  }

  /**
   * The number of bytes the System Exclusive loop reads: everything up to
   * and including the first SYS_EXCL_END, or None if the line never sends
   * one.
   */
  function SysExLength(rest: seq<bv8>): (n: Option<nat>)
    ensures n.Some? ==> 1 <= n.value <= |rest| && rest[n.value - 1] == SYS_EXCL_END
    ensures n.Some? ==> forall k :: 0 <= k < n.value - 1 ==> rest[k] != SYS_EXCL_END
    ensures n.None? <==> forall k :: 0 <= k < |rest| ==> rest[k] != SYS_EXCL_END
    decreases |rest|
  {
    if rest == [] then None
    else if rest[0] == SYS_EXCL_END then Some(1)
    else match SysExLength(rest[1..])
      case None => None
      case Some(n) => Some(n + 1)
  }

  /**
   * How many data bytes the handler for a status byte reads, for every
   * status except 0xF0 (System Exclusive, whose length is SysExLength).
   */
  function DataLength(status: bv8): (n: nat)
    ensures n <= 2
  {
    var cmd := Command(status);
    if cmd in {NOTE_OFF, NOTE_ON, POLY_PRESSURE, CONTROL_CHANGE, PITCH_BEND} then 2
    else if cmd in {PROG_CHANGE, CH_PRESSURE} then 1
    else if cmd == SYS_CMD then
      (var code := Channel(status);
       if code == SYS_POS_PTR then 2
       else if code in {SYS_QTR_FRAME, SYS_SONG_SEL} then 1
       else 0)
    else 0
  }

  /** The message for a status byte and the data bytes its handler read. */
  function MessageOf(status: bv8, data: seq<bv8>): Message
    requires status != SYS_CMD | SYS_EXCL_START && |data| == DataLength(status)
  {
    var cmd, ch := Command(status), Channel(status);
    if cmd == NOTE_OFF then NoteOff(ch, data[0], data[1])
    else if cmd == NOTE_ON then NoteOn(ch, data[0], data[1])
    else if cmd == POLY_PRESSURE then PolyPressure(ch, data[0], data[1])
    else if cmd == CONTROL_CHANGE then ControlChange(ch, data[0], data[1])
    else if cmd == PROG_CHANGE then ProgramChange(ch, data[0])
    else if cmd == CH_PRESSURE then ChannelPressure(ch, data[0])
    else if cmd == PITCH_BEND then PitchBend(ch, data[0], data[1])
    else if cmd == SYS_CMD then
      (if ch == SYS_QTR_FRAME then QuarterFrame(data[0])
       else if ch == SYS_POS_PTR then SongPosition(data[0], data[1])
       else if ch == SYS_SONG_SEL then SongSelect(data[0])
       else SystemOther(ch))
    else Unrecognised(status)
  }

  /**
   * One rxMidiMsg call, given the status byte and the bytes the line
   * sends after it. The call takes exactly the bytes of one message, so
   * the message re-encodes to what was read; it stalls exactly when the
   * line ends first.
   */
  function Parse(status: bv8, rest: seq<bv8>): (p: Parsed)
    ensures p.Complete? ==> p.used <= |rest| && Encode(p.msg) == [status] + rest[..p.used]
    ensures p.Complete? ==> WellFormed(p.msg)
    ensures status != SYS_CMD | SYS_EXCL_START ==>
      (p.Complete? <==> DataLength(status) <= |rest|) && (p.Complete? ==> p.used == DataLength(status))
    ensures status == SYS_CMD | SYS_EXCL_START ==>
      (p.Complete? <==> SysExLength(rest).Some?) && (p.Complete? ==> p.used == SysExLength(rest).value)
  {
    if status == SYS_CMD | SYS_EXCL_START then
      match SysExLength(rest)
      case None => Stalled
      case Some(n) =>
        SysExWellFormed(rest, n);
        Complete(SysEx(rest[..n]), n)
    else if |rest| < DataLength(status) then Stalled
    else
      var n := DataLength(status);
      EncodeMessageOf(status, rest[..n]);
      Complete(MessageOf(status, rest[..n]), n)
  }

  /** A System Exclusive message cut at its first terminator is well formed. */
  lemma SysExWellFormed(rest: seq<bv8>, n: nat)
    requires SysExLength(rest) == Some(n)
    ensures SysExLength(rest[..n]) == Some(n)
  {
    var data := rest[..n];
    assert forall k :: 0 <= k < n - 1 ==> data[k] != SYS_EXCL_END;
    assert data[n - 1] == SYS_EXCL_END;
    SysExLengthOfTerminated(data);
  }

  /** A sequence whose only terminator is its last byte has that length. */
  lemma {:induction false} SysExLengthOfTerminated(data: seq<bv8>)
    requires |data| >= 1 && data[|data| - 1] == SYS_EXCL_END
    requires forall k :: 0 <= k < |data| - 1 ==> data[k] != SYS_EXCL_END
    ensures SysExLength(data) == Some(|data|)
    decreases |data|
  {
    if |data| > 1 {
      SysExLengthOfTerminated(data[1..]);
    }
  }

  /** Bytes after a terminated System Exclusive message do not change its length. */
  lemma {:induction false} SysExLengthPrefix(data: seq<bv8>, rest: seq<bv8>)
    requires SysExLength(data) == Some(|data|)
    ensures SysExLength(data + rest) == Some(|data|)
    decreases |data|
  {
    if |data| > 1 {
      assert (data + rest)[1..] == data[1..] + rest;
      SysExLengthOfTerminated(data[1..]);
      SysExLengthPrefix(data[1..], rest);
    }
  }

  /** MessageOf re-encodes to the bytes it was built from. */
  lemma EncodeMessageOf(status: bv8, data: seq<bv8>)
    requires status != SYS_CMD | SYS_EXCL_START && |data| == DataLength(status)
    ensures Encode(MessageOf(status, data)) == [status] + data
    ensures WellFormed(MessageOf(status, data))
  {
    StatusSplit(status);
    var cmd, ch := Command(status), Channel(status);
    if cmd == SYS_CMD {
      assert SYS_CMD | ch == status;
    } else if cmd < 0x80 {
      assert status < 0x80;
    }
  }

  /** Every well-formed message other than System Exclusive has DataLength data bytes. */
  lemma EncodeDataLength(m: Message)
    requires WellFormed(m) && !m.SysEx?
    ensures Encode(m)[0] != SYS_CMD | SYS_EXCL_START
    ensures DataLength(Encode(m)[0]) == |Encode(m)| - 1
  {
    var st := Encode(m)[0];
    match m
    case SystemOther(code) =>
      assert Command(st) == SYS_CMD && Channel(st) == code;
    case Unrecognised(status) =>
      assert Command(st) < 0x80;
    case _ =>
  }

  /**
   * Decoding inverts encoding: a well-formed message, followed by any
   * bytes, is read back whole and takes exactly its own data bytes.
   */
  lemma ParseEncode(m: Message, rest: seq<bv8>)
    requires WellFormed(m)
    ensures Parse(Encode(m)[0], Encode(m)[1..] + rest) == Complete(m, |Encode(m)| - 1)
  {
    if m.SysEx? {
      ParseEncodeSysEx(m.data, rest);
    } else {
      ParseEncodeFixed(m, rest);
    }
  }

  lemma ParseEncodeSysEx(data: seq<bv8>, rest: seq<bv8>)
    requires WellFormed(SysEx(data))
    ensures Parse(SYS_CMD | SYS_EXCL_START, data + rest) == Complete(SysEx(data), |data|)
  {
    SysExLengthPrefix(data, rest);
    assert (data + rest)[..|data|] == data;
  }

  lemma ParseEncodeFixed(m: Message, rest: seq<bv8>)
    requires WellFormed(m) && !m.SysEx?
    ensures Parse(Encode(m)[0], Encode(m)[1..] + rest) == Complete(m, |Encode(m)| - 1)
  {
    var e := Encode(m);
    var r := e[1..] + rest;
    EncodeDataLength(m);
    assert r[..DataLength(e[0])] == e[1..];
    MessageOfEncode(m);
  }

  /** Rebuilding a message from its own bytes gives the message back. */
  lemma MessageOfEncode(m: Message)
    requires WellFormed(m) && !m.SysEx?
    ensures Encode(m)[0] != SYS_CMD | SYS_EXCL_START && DataLength(Encode(m)[0]) == |Encode(m)| - 1
    ensures MessageOf(Encode(m)[0], Encode(m)[1..]) == m
  {
    EncodeDataLength(m);
    if m.SystemOther? || m.Unrecognised? || m.QuarterFrame? || m.SongPosition? || m.SongSelect? {
      MessageOfEncodeSystem(m);
    } else {
      MessageOfEncodeChannel(m);
    }
  }

  lemma MessageOfEncodeChannel(m: Message)
    requires WellFormed(m) && (m.NoteOff? || m.NoteOn? || m.PolyPressure? || m.ControlChange? ||
      m.ProgramChange? || m.ChannelPressure? || m.PitchBend?)
    requires Encode(m)[0] != SYS_CMD | SYS_EXCL_START && DataLength(Encode(m)[0]) == |Encode(m)| - 1
    ensures MessageOf(Encode(m)[0], Encode(m)[1..]) == m
  {
    StatusSplit(Encode(m)[0]);
  }

  lemma MessageOfEncodeSystem(m: Message)
    requires WellFormed(m) && (m.SystemOther? || m.Unrecognised? || m.QuarterFrame? || m.SongPosition? || m.SongSelect?)
    requires Encode(m)[0] != SYS_CMD | SYS_EXCL_START && DataLength(Encode(m)[0]) == |Encode(m)| - 1
    ensures MessageOf(Encode(m)[0], Encode(m)[1..]) == m
  {
    var st := Encode(m)[0];
    StatusSplit(st);
    match m
    case SystemOther(code) =>
      assert Command(st) == SYS_CMD && Channel(st) == code;
    case Unrecognised(status) =>
      assert Command(st) < 0x80;
    case _ =>
  }

  /** Two messages with the same bytes are the same message. */
  lemma EncodeInjective(m1: Message, m2: Message)
    requires WellFormed(m1) && WellFormed(m2) && Encode(m1) == Encode(m2)
    ensures m1 == m2
  {
    var e := Encode(m1);
    StatusSplit(e[0]);
    if m1.SysEx? || m2.SysEx? {
      assert e[0] == 0xF0;
      assert m1.SysEx? && m2.SysEx?;
      assert m1.data == e[1..] == m2.data;
    }
  }

  // ----- The register writes a message causes -----

  /** MidiControlChange's writes: only controllers 41..46 change a register. */
  function ControlEffect(control: bv8, value: bv8): (ws: seq<Write>)
    ensures 41 <= control <= 45 ==> ws == [Write(0x200 + 4 * (46 - control) as bv32, (value >> 2) as bv32)]
    ensures control == 46 ==> ws == [Write(OFFSET_PULSE_WIDTH_REG, (value as bv32) * 512)]
    ensures !(41 <= control <= 46) ==> ws == []
  {
    if control == 41 then [SetWaveAmp(SINE_WAVE, (value >> 2) as bv32)]
    else if control == 42 then [SetWaveAmp(TRI_WAVE, (value >> 2) as bv32)]
    else if control == 43 then [SetWaveAmp(SAW_WAVE, (value >> 2) as bv32)]
    else if control == 44 then [SetWaveAmp(RAMP_WAVE, (value >> 2) as bv32)]
    else if control == 45 then [SetWaveAmp(PULSE_WAVE, (value >> 2) as bv32)]
    else if control == 46 then [SetPulseWidth((value as bv32) << 9)]
    else []
  }

  /** The synth register writes the handler of a message issues, in order. */
  function Effect(m: Message): (ws: seq<Write>)
    ensures |ws| <= 1
    ensures !(m.NoteOff? || m.NoteOn? || m.ControlChange?) ==> ws == []
  {
    match m
    case NoteOff(_, key, _) => [StopNote(key)]
    case NoteOn(_, key, velocity) => [PlayNote(key, velocity as bv32)]
    case ControlChange(_, control, value) => ControlEffect(control, value)
    case _ => []
  }

  /**
   * Only Note On, Note Off and controllers 41..46 write a register, and
   * none writes more than one.
   */
  lemma OnlyNotesAndWaveControlsWrite(m: Message)
    ensures |Effect(m)| <= 1
    ensures Effect(m) != [] <==> m.NoteOn? || m.NoteOff? || (m.ControlChange? && 41 <= m.control <= 46)
  {
  }

  /**
   * Note On gives the key's amplitude register the velocity and Note Off
   * gives it zero; no other register changes.
   */
  lemma NoteEffects(log: seq<Write>, ch: bv8, key: bv8, velocity: bv8, addr: bv32)
    ensures LastWrite(log + Effect(NoteOn(ch, key, velocity)), addr) ==
      if addr == key as bv32 * 4 then Some(velocity as bv32) else LastWrite(log, addr)
    ensures LastWrite(log + Effect(NoteOff(ch, key, velocity)), addr) ==
      if addr == key as bv32 * 4 then Some(0) else LastWrite(log, addr)
  {
    NoteWritesChangeOnlyTheirChannel(log, key, velocity as bv32, addr);
  }

  /** A Note On with velocity 0 leaves the registers as a Note Off does. */
  lemma NoteOnVelocityZeroIsNoteOff(ch: bv8, key: bv8, velocity: bv8)
    ensures Effect(NoteOn(ch, key, 0)) == Effect(NoteOff(ch, key, velocity))
  {
  }

  /**
   * Controllers 41..45 set the sine, triangle, saw, ramp and pulse
   * amplitudes to value >> 2: a 7-bit value gives at most 31, 127 gives
   * 31 and 0 gives 0.
   */
  lemma WaveAmplitudeControls(value: bv8)
    ensures ControlEffect(41, value)[0].addr == OFFSET_SINE_REG
    ensures ControlEffect(42, value)[0].addr == OFFSET_TRI_REG
    ensures ControlEffect(43, value)[0].addr == OFFSET_SAW_REG
    ensures ControlEffect(44, value)[0].addr == OFFSET_RAMP_REG
    ensures ControlEffect(45, value)[0].addr == OFFSET_PULSE_REG
    ensures forall c :: 41 <= c <= 45 ==> ControlEffect(c, value)[0].value == (value >> 2) as bv32
    ensures value < 0x80 ==> (value >> 2) as bv32 <= 31
    ensures ControlEffect(41, 127)[0].value == 31 && ControlEffect(41, 0)[0].value == 0
  {
  }

  /**
   * Controller 46 sets the pulse width to value << 9: for a 7-bit value a
   * multiple of 512 no larger than 0xFE00.
   */
  lemma PulseWidthControl(value: bv8)
    ensures RegisterAt(ControlEffect(46, value)[0].addr) == PulseWidth
    ensures ControlEffect(46, value)[0].value % 512 == 0
    ensures value < 0x80 ==> ControlEffect(46, value)[0].value <= 0xFE00
  {
  }

  /** The channel mode controllers 120..127 only log. */
  lemma ChannelModeControllersOnlyLog(value: bv8)
    ensures forall c :: c in ChannelModeControllers() ==> ControlEffect(c, value) == []
  {
    ChannelModeControllersAre120To127();
  }

  // ----- The values the handlers compute and print -----

  /** pitchBend = (MidiBuffer[1] << 7) + MidiBuffer[0] - 0x2000, in C int arithmetic. */
  function PitchBendValue(lsb: bv8, msb: bv8): (bend: int)
    ensures bend + 0x2000 == msb as int * 128 + lsb as int
    ensures lsb < 0x80 && msb < 0x80 ==> -8192 <= bend <= 8191
  {
    (msb as int) * 128 + lsb as int - 0x2000
  }

  /**
   * For 7-bit data the bend value determines both data bytes, and it is
   * zero exactly at the centre position lsb = 0x00, msb = 0x40.
   */
  lemma PitchBendInverse(lsb: bv8, msb: bv8)
    requires lsb < 0x80 && msb < 0x80
    ensures (PitchBendValue(lsb, msb) + 0x2000) % 128 == lsb as int
    ensures (PitchBendValue(lsb, msb) + 0x2000) / 128 == msb as int
    ensures PitchBendValue(lsb, msb) == 0 <==> lsb == 0 && msb == 0x40
  {
  }

  /** position = (MidiBuffer[1] << 7) + MidiBuffer[0]: a 14-bit beat count for 7-bit data. */
  function SongPositionValue(lsb: bv8, msb: bv8): (position: int)
    ensures position == msb as int * 128 + lsb as int
    ensures lsb < 0x80 && msb < 0x80 ==> 0 <= position < 0x4000
  {
    (msb as int) * 128 + lsb as int
  }

  /** For 7-bit data the song position determines both data bytes. */
  lemma SongPositionInverse(lsb: bv8, msb: bv8)
    requires lsb < 0x80 && msb < 0x80
    ensures SongPositionValue(lsb, msb) % 128 == lsb as int
    ensures SongPositionValue(lsb, msb) / 128 == msb as int
  {
  }

  datatype TimeCode = TimeCode(kind: bv8, values: bv8)

  /** Quarter Frame: type = byte >> 4 and values = byte & 0x0F, which rebuild the byte. */
  function QuarterFrameFields(frame: bv8): (t: TimeCode)
    ensures t.values < 16 && t.kind < 16
    ensures (t.kind << 4) | t.values == frame
  {
    TimeCode(frame >> 4, frame & 0x0F)
  }

  // ----- Successive rxMidiMsg calls on one stream -----

  /** The messages successive rxMidiMsg calls read from a stream of line bytes. */
  function DecodeStream(bytes: seq<bv8>): (ms: seq<Message>)
    ensures |ms| <= |bytes|
    decreases |bytes|
  {
    if bytes == [] then []
    else match Parse(bytes[0], bytes[1..])
      case Stalled => []
      case Complete(m, n) => [m] + DecodeStream(bytes[1 + n..])
  }

  function EncodeStream(ms: seq<Message>): seq<bv8>
  {
    if ms == [] then [] else Encode(ms[0]) + EncodeStream(ms[1..])
  }

  /** A well-formed message's bytes, whatever follows them, read back as that message first. */
  lemma DecodeStreamOfEncode(m: Message, tail: seq<bv8>)
    requires WellFormed(m)
    ensures DecodeStream(Encode(m) + tail) == [m] + DecodeStream(tail)
  {
    var e := Encode(m);
    var bytes := e + tail;
    assert bytes[0] == e[0] && bytes[1..] == e[1..] + tail;
    ParseEncode(m, tail);
    assert bytes[1 + (|e| - 1)..] == tail;
  }

  /** Every sequence of well-formed messages is read back exactly from its bytes. */
  lemma {:induction false} DecodeEncodeStream(ms: seq<Message>)
    requires forall i :: 0 <= i < |ms| ==> WellFormed(ms[i])
    ensures DecodeStream(EncodeStream(ms)) == ms
  {
    if ms != [] {
      DecodeStreamOfEncode(ms[0], EncodeStream(ms[1..]));
      DecodeEncodeStream(ms[1..]);
    }
  }

  /**
   * There is no running status: after a Note On, two further data bytes
   * are taken as status bytes below 0x80 and only logged, so one note plays.
   */
  lemma NoRunningStatus()
    ensures DecodeStream([0x90, 0x3C, 0x40, 0x3E, 0x41]) ==
      [NoteOn(0, 0x3C, 0x40), Unrecognised(0x3E), Unrecognised(0x41)]
  {
    assert Parse(0x90, [0x3C, 0x40, 0x3E, 0x41]) == Complete(NoteOn(0, 0x3C, 0x40), 2);
    var bytes: seq<bv8> := [0x90, 0x3C, 0x40, 0x3E, 0x41];
    assert bytes[3..] == [0x3E, 0x41];
    assert Parse(0x3E, [0x41]) == Complete(Unrecognised(0x3E), 0);
    assert Parse(0x41, []) == Complete(Unrecognised(0x41), 0);
  }

  /**
   * Real-time bytes are not filtered: a timing clock 0xF8 that arrives
   * inside a Note On is taken as its key, and the unchecked key 0xF8 makes
   * the write land on the revision register.
   */
  lemma ClockByteInsideNoteOn()
    ensures DecodeStream([0x90, 0xF8, 0x40]) == [NoteOn(0, 0xF8, 0x40)]
    ensures Effect(NoteOn(0, 0xF8, 0x40)) == [Write(OFFSET_REV_REG, 0x40)]
  {
    assert Parse(0x90, [0xF8, 0x40]) == Complete(NoteOn(0, 0xF8, 0x40), 2);
  }
}
