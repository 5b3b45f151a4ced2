/*
 * The synthesizer controller's register map (src/sw/synth_ctrl/synth_ctrl.h)
 * and its bring-up and self-test (src/sw/synth_ctrl/synth_ctrl.c).
 *
 * Each address macro becomes a function returning the (offset, value) pair
 * that `XGpio_WriteReg(SYNTH_CTRL_BASEADDR, offset, value)` would issue; the
 * register space is reached through a `SynthBus`, which logs the writes and
 * asks an oracle for the value of each read.
 */
module SynthCtrl {
  import opened Utils

  const SAMPLE_RATE: nat := 96000
  const MAX_AMPLITUDE: nat := 65535

  // waveform types (wave_type is a uint8_t)
  const PULSE_WAVE: bv8 := 1
  const RAMP_WAVE: bv8 := 2
  const SAW_WAVE: bv8 := 3
  const TRI_WAVE: bv8 := 4
  const SINE_WAVE: bv8 := 5

  // address offsets from SYNTH_CTRL_BASEADDR
  const OFFSET_PULSE_WIDTH_REG: bv32 := 0x200
  const OFFSET_PULSE_REG: bv32 := 0x204
  const OFFSET_RAMP_REG: bv32 := 0x208
  const OFFSET_SAW_REG: bv32 := 0x20C
  const OFFSET_TRI_REG: bv32 := 0x210
  const OFFSET_SINE_REG: bv32 := 0x214
  const OFFSET_GAIN_SHIFT_REG: bv32 := 0x220
  const OFFSET_GAIN_SCALE_REG: bv32 := 0x224
  const OFFSET_ATTACK_AMT: bv32 := 0x280
  const OFFSET_DECAY_AMT: bv32 := 0x284
  const OFFSET_SUSTAIN_AMT: bv32 := 0x288
  const OFFSET_RELEASE_AMT: bv32 := 0x28C
  const OFFSET_REV_REG: bv32 := 0x3E0
  const OFFSET_DATE_REG: bv32 := 0x3E4
  const OFFSET_WRAPBACK_REG: bv32 := 0x3FC
  const OFFSET_PITCH_REG: bv32 := 0x400

  /** The pattern checkSynthCtrl writes to the wrapback register. */
  const WRAPBACK_TEST: bv32 := 0xABCD1234

  /** One register write: offset from the controller's base address, and data. */
  datatype Write = Write(addr: bv32, value: bv32)

  /** What the controller's register at an offset is for. */
  datatype Register =
    | NoteAmp(note: bv8)       // per-note amplitude channel, offsets 0x000..0x1FC
    | PulseWidth
    | WaveAmp(wave: bv8)       // amplitude of waveform PULSE_WAVE..SINE_WAVE
    | GainShift
    | GainScale
    | AttackAmt
    | DecayAmt
    | SustainAmt
    | ReleaseAmt
    | Revision
    | DateCode
    | Wrapback
    | Pitch(note: bv8)         // per-note frequency word, offsets 0x400..0x5FC
    | Unmapped

  /** A word-aligned distance below 0x200 is its word index times four. */
  lemma WordIndexOf(d: bv32)
    requires d & 3 == 0 && d < 0x200
    ensures (d >> 2) as bv8 < 128 && (((d >> 2) as bv8) as bv32) << 2 == d
  {
  }

  /** The controller's memory map, read off the offset table. */
  function RegisterAt(addr: bv32): (r: Register)
    ensures r != Unmapped ==> addr & 3 == 0
    ensures r.NoteAmp? ==> r.note < 128 && addr == (r.note as bv32) << 2
    ensures r.WaveAmp? ==> PULSE_WAVE <= r.wave <= SINE_WAVE && addr == OFFSET_PULSE_WIDTH_REG + ((r.wave as bv32) << 2)
    ensures r.Pitch? ==> r.note < 128 && addr == OFFSET_PITCH_REG + ((r.note as bv32) << 2)
  {
    if addr & 3 != 0 then Unmapped
    else if addr < OFFSET_PULSE_WIDTH_REG then NoteAmp((addr >> 2) as bv8)
    else if addr == OFFSET_PULSE_WIDTH_REG then PulseWidth
    else if addr <= OFFSET_SINE_REG then
      WordIndexOf(addr - OFFSET_PULSE_WIDTH_REG);
      WaveAmp(((addr - OFFSET_PULSE_WIDTH_REG) >> 2) as bv8)
    else if addr == OFFSET_GAIN_SHIFT_REG then GainShift
    else if addr == OFFSET_GAIN_SCALE_REG then GainScale
    else if addr == OFFSET_ATTACK_AMT then AttackAmt
    else if addr == OFFSET_DECAY_AMT then DecayAmt
    else if addr == OFFSET_SUSTAIN_AMT then SustainAmt
    else if addr == OFFSET_RELEASE_AMT then ReleaseAmt
    else if addr == OFFSET_REV_REG then Revision
    else if addr == OFFSET_DATE_REG then DateCode
    else if addr == OFFSET_WRAPBACK_REG then Wrapback
    else if OFFSET_PITCH_REG <= addr < OFFSET_PITCH_REG + 0x200 then
      WordIndexOf(addr - OFFSET_PITCH_REG);
      Pitch(((addr - OFFSET_PITCH_REG) >> 2) as bv8)
    else Unmapped
  }

  /**
   * playNote(note, amp): the amplitude goes to offset note*4. The offset
   * names the note, and lies below the control registers exactly for the
   * 128 MIDI keys; the macro itself does not check the key.
   */
  function PlayNote(note: bv8, amp: bv32): (w: Write)
    ensures w.value == amp
    ensures w.addr & 3 == 0 && w.addr >> 2 == note as bv32
    ensures note < 128 <==> w.addr < OFFSET_PULSE_WIDTH_REG
  {
    Write(note as bv32 * 4, amp)
  }

  /** stopNote(note): a zero amplitude at the same offset as playNote. */
  function StopNote(note: bv8): (w: Write)
    ensures w.value == 0 && w.addr == PlayNote(note, 0).addr
  {
    Write(note as bv32 * 4, 0)
  }

  /** setPitch(note, pitch): the frequency word goes to OFFSET_PITCH_REG + note*4. */
  function SetPitch(note: bv8, pitch: bv32): (w: Write)
    ensures w.value == pitch
    ensures w.addr & 3 == 0 && (w.addr - OFFSET_PITCH_REG) >> 2 == note as bv32
    ensures note < 128 <==> OFFSET_PITCH_REG <= w.addr <= 0x5FC
  {
    Write(OFFSET_PITCH_REG + note as bv32 * 4, pitch)
  }

  /** setPulseWidth(width). */
  function SetPulseWidth(width: bv32): (w: Write)
    ensures RegisterAt(w.addr) == PulseWidth && w.value == width
  {
    Write(OFFSET_PULSE_WIDTH_REG, width)
  }

  /**
   * setWaveAmp(wave_form, amp): offset 0x200 + 4*wave_form, which is the
   * amplitude register of that waveform exactly for PULSE_WAVE..SINE_WAVE.
   */
  function SetWaveAmp(wave: bv8, amp: bv32): (w: Write)
    ensures w.value == amp
    ensures RegisterAt(w.addr) == WaveAmp(wave) <==> PULSE_WAVE <= wave <= SINE_WAVE
  {
    Write(0x200 + 4 * wave as bv32, amp)
  }

  /** setWavePh(wave_form, phase): the same offset as setWaveAmp. */
  function SetWavePh(wave: bv8, phase: bv32): (w: Write)
    ensures w.value == phase && w.addr == SetWaveAmp(wave, 0).addr
  {
    Write(0x200 + 4 * wave as bv32, phase)
  }

  function SetAttack(amt: bv32): (w: Write)
    ensures RegisterAt(w.addr) == AttackAmt && w.value == amt
  {
    Write(OFFSET_ATTACK_AMT, amt)
  }

  function SetDecay(amt: bv32): (w: Write)
    ensures RegisterAt(w.addr) == DecayAmt && w.value == amt
  {
    Write(OFFSET_DECAY_AMT, amt)
  }

  function SetSustain(amt: bv32): (w: Write)
    ensures RegisterAt(w.addr) == SustainAmt && w.value == amt
  {
    Write(OFFSET_SUSTAIN_AMT, amt)
  }

  function SetRelease(amt: bv32): (w: Write)
    ensures RegisterAt(w.addr) == ReleaseAmt && w.value == amt
  {
    Write(OFFSET_RELEASE_AMT, amt)
  }

  /** setOutAmp(amp): the output gain scale. */
  function SetOutAmp(amp: bv32): (w: Write)
    ensures RegisterAt(w.addr) == GainScale && w.value == amp
  {
    Write(OFFSET_GAIN_SCALE_REG, amp)
  }

  /** setOutShift(shift_amt): the output gain shift. */
  function SetOutShift(shift: bv32): (w: Write)
    ensures RegisterAt(w.addr) == GainShift && w.value == shift
  {
    Write(OFFSET_GAIN_SHIFT_REG, shift)
  }

  function SetWrapback(data: bv32): (w: Write)
    ensures RegisterAt(w.addr) == Wrapback && w.value == data
  {
    Write(OFFSET_WRAPBACK_REG, data)
  }

  /** Every named offset, in the order of the header. */
  function NamedOffsets(): seq<bv32>
  {
    [OFFSET_PULSE_WIDTH_REG, OFFSET_PULSE_REG, OFFSET_RAMP_REG, OFFSET_SAW_REG,
     OFFSET_TRI_REG, OFFSET_SINE_REG, OFFSET_GAIN_SHIFT_REG, OFFSET_GAIN_SCALE_REG,
     OFFSET_ATTACK_AMT, OFFSET_DECAY_AMT, OFFSET_SUSTAIN_AMT, OFFSET_RELEASE_AMT,
     OFFSET_REV_REG, OFFSET_DATE_REG, OFFSET_WRAPBACK_REG, OFFSET_PITCH_REG]
  }

  /** The named offsets are distinct, word aligned, and none is a note channel. */
  lemma NamedOffsetsDistinctWords()
    ensures forall i :: 0 <= i < |NamedOffsets()| ==> NamedOffsets()[i] & 3 == 0
    ensures forall i :: 0 <= i < |NamedOffsets()| ==> NamedOffsets()[i] >= OFFSET_PULSE_WIDTH_REG
    ensures forall i, j :: 0 <= i < j < |NamedOffsets()| ==> NamedOffsets()[i] != NamedOffsets()[j]
  {
  }

  /** The waveform constants select the five amplitude offsets of the header. */
  lemma WaveAmpOffsets()
    ensures SetWaveAmp(PULSE_WAVE, 0).addr == OFFSET_PULSE_REG
    ensures SetWaveAmp(RAMP_WAVE, 0).addr == OFFSET_RAMP_REG
    ensures SetWaveAmp(SAW_WAVE, 0).addr == OFFSET_SAW_REG
    ensures SetWaveAmp(TRI_WAVE, 0).addr == OFFSET_TRI_REG
    ensures SetWaveAmp(SINE_WAVE, 0).addr == OFFSET_SINE_REG
  {
  }

  /**
   * A note write reaches that note's amplitude channel exactly for the MIDI
   * keys 0..127; the unchecked keys 128..255 alias the control registers
   * (key 0x80 is the pulse width, 0xF8 the revision register, 0xFF the
   * wrapback register) or unmapped offsets.
   */
  lemma NoteChannelIffMidiKey(note: bv8, amp: bv32)
    ensures RegisterAt(PlayNote(note, amp).addr) == NoteAmp(note) <==> note < 128
    ensures note >= 128 ==> !RegisterAt(PlayNote(note, amp).addr).NoteAmp?
    ensures RegisterAt(PlayNote(0x80, amp).addr) == PulseWidth
    ensures RegisterAt(PlayNote(0xF8, amp).addr) == Revision
    ensures RegisterAt(PlayNote(0xFF, amp).addr) == Wrapback
  {
  }

  /** A pitch write reaches that note's frequency word exactly for keys 0..127. */
  lemma PitchWordIffMidiKey(note: bv8, pitch: bv32)
    ensures RegisterAt(SetPitch(note, pitch).addr) == Pitch(note) <==> note < 128
    ensures note >= 128 ==> RegisterAt(SetPitch(note, pitch).addr) == Unmapped
  {
  }

  /** Every note write, for any key, is disjoint from every pitch write. */
  lemma NoteAndPitchWritesDisjoint(n: bv8, m: bv8, a: bv32, p: bv32)
    ensures PlayNote(n, a).addr != SetPitch(m, p).addr
  {
  }

  // ----- The register space as seen through the write log -----

  /**
   * The value the register at `addr` was last given in `log`, or None if
   * `log` never writes it: the later of two writes to one offset wins.
   */
  function LastWrite(log: seq<Write>, addr: bv32): (v: Option<bv32>)
    ensures v.Some? ==> Write(addr, v.value) in log
    ensures v.None? ==> forall k :: 0 <= k < |log| ==> log[k].addr != addr
  {
    if log == [] then None
    else if log[|log| - 1].addr == addr then Some(log[|log| - 1].value)
    else LastWrite(log[..|log| - 1], addr)
  }

  /** One more write changes its own register and no other. */
  lemma LastWriteAppend(log: seq<Write>, w: Write, addr: bv32)
    ensures LastWrite(log + [w], addr) == if addr == w.addr then Some(w.value) else LastWrite(log, addr)
  {
    assert (log + [w])[..|log|] == log;
  }

  /** A register that `l2` writes holds `l2`'s value; any other keeps `l1`'s. */
  lemma {:induction false} LastWriteConcat(l1: seq<Write>, l2: seq<Write>, addr: bv32)
    ensures LastWrite(l1 + l2, addr) == if LastWrite(l2, addr).Some? then LastWrite(l2, addr) else LastWrite(l1, addr)
    decreases |l2|
  {
    if l2 == [] {
      assert l1 + l2 == l1;
    } else {
      var init, w := l2[..|l2| - 1], l2[|l2| - 1];
      assert l2 == init + [w];
      assert l1 + l2 == (l1 + init) + [w];
      LastWriteAppend(l1 + init, w, addr);
      LastWriteAppend(init, w, addr);
      LastWriteConcat(l1, init, addr);
    }
  }

  /**
   * playNote gives the note's amplitude register the velocity and leaves
   * every other register as it was; stopNote gives it zero.
   */
  lemma NoteWritesChangeOnlyTheirChannel(log: seq<Write>, note: bv8, amp: bv32, addr: bv32)
    ensures LastWrite(log + [PlayNote(note, amp)], addr) ==
      if addr == note as bv32 * 4 then Some(amp) else LastWrite(log, addr)
    ensures LastWrite(log + [StopNote(note)], addr) ==
      if addr == note as bv32 * 4 then Some(0) else LastWrite(log, addr)
  {
    LastWriteAppend(log, PlayNote(note, amp), addr);
    LastWriteAppend(log, StopNote(note), addr);
  }

  // ----- checkSynthCtrl's decoding of the identification registers -----

  datatype RevisionCode = RevisionCode(major: bv16, minor: bv16)
  datatype DateStamp = DateStamp(year: bv16, month: bv8, day: bv8)

  /** rev_major = data >> 16, rev_minor = data & 0xFFFF; together they rebuild the word. */
  function DecodeRevision(data: bv32): (r: RevisionCode)
    ensures ((r.major as bv32) << 16) | (r.minor as bv32) == data
  {
    RevisionCode((data >> 16) as bv16, (data & 0xFFFF) as bv16)
  }

  /**
   * year = data & 0xFFFF, month = (u8)(data >> 16), day = data >> 24:
   * bits 0..15, 16..23 and 24..31, which together rebuild the word.
   */
  function DecodeDate(data: bv32): (r: DateStamp)
    ensures ((r.day as bv32) << 24) | ((r.month as bv32) << 16) | (r.year as bv32) == data
  {
    DateStamp((data & 0xFFFF) as bv16, ((data >> 16) & 0xFF) as bv8, (data >> 24) as bv8)
  }

  lemma DateYearBits(data: bv32)
    ensures DecodeDate(data).year as bv32 == GetBits(data, 0, 15)
  {
  }

  lemma DateMonthBits(data: bv32)
    ensures DecodeDate(data).month as bv32 == GetBits(data, 16, 23)
  {
  }

  lemma DateDayBits(data: bv32)
    ensures DecodeDate(data).day as bv32 == GetBits(data, 24, 31)
  {
  }

  /** The date fields are the GET_BITS fields 0..15, 16..23 and 24..31 of the word. */
  lemma DateFieldsAreBitFields(data: bv32)
    ensures DecodeDate(data).year as bv32 == GetBits(data, 0, 15)
    ensures DecodeDate(data).month as bv32 == GetBits(data, 16, 23)
    ensures DecodeDate(data).day as bv32 == GetBits(data, 24, 31)
  {
    DateYearBits(data);
    DateMonthBits(data);
    DateDayBits(data);
  }

  /** The result of the wrapback comparison for the value read back. */
  function WrapbackVerdict(readBack: bv32): (status: int)
    ensures status == XST_SUCCESS || status == XST_FAILURE
    ensures status == XST_FAILURE <==> readBack != WRAPBACK_TEST
  {
    if readBack == WRAPBACK_TEST then XST_SUCCESS else XST_FAILURE
  }

  /** A register that holds its last write passes the wrapback test. */
  lemma WrapbackPassesOnAWorkingRegister(log: seq<Write>)
    ensures LastWrite(log + [SetWrapback(WRAPBACK_TEST)], OFFSET_WRAPBACK_REG) == Some(WRAPBACK_TEST)
    ensures WrapbackVerdict(LastWrite(log + [SetWrapback(WRAPBACK_TEST)], OFFSET_WRAPBACK_REG).value) == XST_SUCCESS
  {
    LastWriteAppend(log, SetWrapback(WRAPBACK_TEST), OFFSET_WRAPBACK_REG);
  }

  /**
   * The controller as seen from the processor. `hardware(log, addr)` is the
   * value a read of `addr` returns after the writes in `log`.
   */
  class SynthBus {
    var log: seq<Write>
    const hardware: (seq<Write>, bv32) -> bv32

    constructor(hardware: (seq<Write>, bv32) -> bv32)
      ensures log == [] && this.hardware == hardware
    {
      log := [];
      this.hardware := hardware;
    }

    /** synthWrite(addr, data). */
    method SynthWrite(w: Write)
      modifies this
      ensures log == old(log) + [w]
    {
      log := log + [w];
    }

    /** synthRead(addr). */
    method SynthRead(addr: bv32) returns (data: bv32)
      ensures data == hardware(log, addr)
    {
      data := hardware(log, addr);
    }

    /**
     * initSynth: sine amplitude 0x1F, then gain scale 0x3F, then gain
     * shift 8; it always succeeds.
     */
    method InitSynth() returns (status: int)
      modifies this
      ensures log == old(log) + [Write(0x214, 0x1F), Write(0x224, 0x3F), Write(0x220, 8)]
      ensures LastWrite(log, OFFSET_SINE_REG) == Some(0x1F)
      ensures LastWrite(log, OFFSET_GAIN_SCALE_REG) == Some(0x3F)
      ensures LastWrite(log, OFFSET_GAIN_SHIFT_REG) == Some(8)
      ensures status == XST_SUCCESS
    {
      SynthWrite(SetWaveAmp(SINE_WAVE, 0x1F));
      SynthWrite(SetOutAmp(0x3F));
      SynthWrite(SetOutShift(0x8));
      var l0 := old(log);
      assert log == (l0 + [Write(0x214, 0x1F), Write(0x224, 0x3F)]) + [Write(0x220, 8)];
      assert l0 + [Write(0x214, 0x1F), Write(0x224, 0x3F)] == (l0 + [Write(0x214, 0x1F)]) + [Write(0x224, 0x3F)];
      LastWriteAppend(l0, Write(0x214, 0x1F), OFFSET_SINE_REG);
      LastWriteAppend(l0 + [Write(0x214, 0x1F)], Write(0x224, 0x3F), OFFSET_SINE_REG);
      LastWriteAppend(l0 + [Write(0x214, 0x1F)], Write(0x224, 0x3F), OFFSET_GAIN_SCALE_REG);
      LastWriteAppend(l0 + [Write(0x214, 0x1F), Write(0x224, 0x3F)], Write(0x220, 8), OFFSET_SINE_REG);
      LastWriteAppend(l0 + [Write(0x214, 0x1F), Write(0x224, 0x3F)], Write(0x220, 8), OFFSET_GAIN_SCALE_REG);
      LastWriteAppend(l0 + [Write(0x214, 0x1F), Write(0x224, 0x3F)], Write(0x220, 8), OFFSET_GAIN_SHIFT_REG);
      return XST_SUCCESS;
    }

    /**
     * checkSynthCtrl: decodes the revision and date words (which the
     * firmware prints), reads the wrapback register, writes the test
     * pattern to it and compares what it reads back.
     */
    method CheckSynthCtrl() returns (status: int, rev: RevisionCode, date: DateStamp)
      modifies this
      ensures log == old(log) + [Write(OFFSET_WRAPBACK_REG, WRAPBACK_TEST)]
      ensures rev == DecodeRevision(hardware(old(log), OFFSET_REV_REG))
      ensures date == DecodeDate(hardware(old(log), OFFSET_DATE_REG))
      ensures status == XST_FAILURE <==> hardware(log, OFFSET_WRAPBACK_REG) != WRAPBACK_TEST
      ensures status == XST_SUCCESS || status == XST_FAILURE
    {
      var data := SynthRead(OFFSET_REV_REG);
      rev := DecodeRevision(data);
      data := SynthRead(OFFSET_DATE_REG);
      date := DecodeDate(data);
      data := SynthRead(OFFSET_WRAPBACK_REG);
      SynthWrite(SetWrapback(WRAPBACK_TEST));
      data := SynthRead(OFFSET_WRAPBACK_REG);
      if data == WRAPBACK_TEST {
        status := XST_SUCCESS;
      } else {
        status := XST_FAILURE;
        return;
      }
      status := XST_SUCCESS;
    }
  }
}
