# zynth firmware core, modelled in Dafny

zynth is an FPGA synthesizer. Its processor-side firmware does four jobs:

- It reads MIDI from a UART, decodes each message, and turns Note On/Off and a few controllers into writes to the synthesizer controller's registers.
- It brings up the controller: an initial write sequence and a self-test.
- It holds a table of default frequency words, one per MIDI key.
- It configures the SSM2603 audio codec over I2C and reads its registers back into a struct.

This project models those parts and proves properties of them. It also models the earlier revisions of the MIDI receiver and of the codec driver.

Modules, one per source unit:

- `Utils`: `RETURN_ON_FAILURE`, `GET_BIT` and `GET_BITS`, and the Xilinx status codes.
- `MidiDefs`: the MIDI constants of `midi.h` and the 128-entry note-name table.
- `MidiMessages`: the pure side of the decoder.
  - `Parse` gives what one `rxMidiMsg` call takes from the line.
  - `Encode`/`MessageOf` turn a message back into its bytes.
  - `Effect` is the synth register writes a message causes.
  - `DecodeStream` is what successive calls make of a byte stream.
- `Serial`: the UART receiver and the blocking `readMidi` loop.
  - The UART is a class holding every byte that will arrive and a cursor.
  - Each receive call delivers a burst of bytes chosen by an oracle.
- `Midi`: the receiver of `src/sw/midi/midi.c`, as a class.
  - It holds the UART, `MidiBuffer` (an `array`) and the synth bus.
  - Every handler method is proved against `Parse` and `Effect`.
- `MidiLegacy`: the first receiver, in `src/sw/midi.c` and again in `src/sw/main.c`. It decodes and writes nothing.
- `SynthCtrl`: the register map of the synthesizer controller.
  - Each address macro is a function that returns the `(offset, value)` write.
  - `LastWrite` reads a write log back as register contents.
  - `SynthBus` is a class: it logs writes and answers reads from an oracle of the hardware. `initSynth` and `checkSynthCtrl` are its methods.
- `Pitch`: `FreqWordDefaults`, proved strictly increasing, bounded, and doubling each octave.
- `Ssm2603Regs`: the codec's register map and the field table of `get_codec_config`.
  - The table covers the `B_` positions, `W_` widths and `M_` masks, and the `PM_` power presets.
  - The codec struct is a map from field to value.
- `Ssm2603`: the current codec driver.
  - The write frame and the read assembly.
  - `configCodec`'s six writes, with early exit.
  - `get_codec_config`'s thirteen reads, with early exit.
  - The I2C primitives are an oracle: the k-th transaction gets the reply `bus(k)`.
- `Ssm2603Legacy`: the first codec driver, with its frame, its five writes and its mask-valued `B_` constants.

Integers of the C code are bit-vectors: `u8` is `bv8`, `u16` is `bv16`, `u32` and C `int` constants used as bits are `bv32`. Pitch bend and song position, which C computes in `int`, are `int`.

Where the code differs from what a reader of its comments might expect, the model follows the code:

- There is no running status and no filtering of real-time bytes. `MidiMessages.NoRunningStatus` and `MidiMessages.ClockByteInsideNoteOn` show the consequences.
- Note keys are not range-checked. Key 0xF8 writes the revision register, as `SynthCtrl.NoteChannelIffMidiKey` shows.
- `XUartPs_Recv` does not block. When nothing is waiting, the old `MidiBuffer[0]` is dispatched again. The model produces this only once the line has no byte left; a receive FIFO that is empty for a moment between bytes is not modelled (see "## Left out").

## Model

| member | source | states |
|---|---|---|
| Utils.ReturnOnFailure | src/sw/utils/utils.h:33 | the caller returns early exactly when the status is not XST_SUCCESS, and it then returns XST_FAILURE |
| Utils.GetBit | src/sw/utils/utils.h:35 | GET_BIT is 0 or 1 |
| Utils.GetBitIsSetBit | src/sw/utils/utils.h:35 | GET_BIT(d, p) is 1 exactly when bit p of d is set |
| Utils.GetBits | src/sw/utils/utils.h:36 | GET_BITS(d, s, e) is below 2^(e-s+1) |
| Utils.GetBitsSingle | src/sw/utils/utils.h:35-36 | GET_BITS(d, p, p) equals GET_BIT(d, p) |
| Utils.GetBitIsMasked | src/sw/utils/utils.h:35 | GET_BIT is the bit under the mask 1 << pos, moved down to bit 0 |
| Utils.GetBitsIsMasked | src/sw/utils/utils.h:36 | GET_BITS is the data under the mask of its field, shifted down to bit 0 |
| Utils.GetBitsOfPlaced | src/sw/utils/utils.h:36 | a value below 2^(e-s+1), shifted up to s, is read back by GET_BITS(., s, e) |
| MidiDefs.ChannelVoiceCommandsAreHighNibbles | src/sw/midi/midi.h:25-31 | NOTE_OFF..PITCH_BEND are 0x80, 0x90, ..., 0xE0: seven distinct values, each with a zero low nibble |
| MidiDefs.ChannelModeControllersAre120To127 | src/sw/midi/midi.h:34-41 | ALL_SOUND_OFF..POLY_MODE_ON are the controller numbers 120..127, consecutively |
| MidiDefs.SystemSubCodesAreLowNibbles | src/sw/midi/midi.h:44-57 | the system sub-codes are distinct values below 16; SYS_EXCL_END is the whole byte 0xF7, SYS_CMD with sub-code 7 |
| MidiDefs.MidiNoteName | src/sw/midi/midi.h:59-70 | the 128 entries of MIDI_NOTE_NAMES, as the header lists them; the table carries no contract of its own, and NoteNamesFollowPitchClassAndOctave states what every entry is |
| MidiDefs.NoteNamesFollowPitchClassAndOctave | src/sw/midi/midi.h:59-70 | each of the 128 entries of MIDI_NOTE_NAMES is four characters: pitch class key mod 12 and octave key / 12, padded with spaces |
| MidiMessages.Command | src/sw/midi/midi.c:116 | the command has a zero low nibble and differs from the status by less than 16 |
| MidiMessages.Channel | src/sw/midi/midi.c:117 | the channel is below 16 |
| MidiMessages.StatusSplit | src/sw/midi/midi.c:116-117 | command and channel are disjoint, and together their OR (and their sum) is the status byte |
| MidiMessages.DataLength | src/sw/midi/midi.c:174-491 | no handler but System Exclusive reads more than two data bytes |
| MidiMessages.SysExLength | src/sw/midi/midi.c:461-464 | the System Exclusive loop reads up to and including the first 0xF7; there is no result exactly when no 0xF7 follows |
| MidiMessages.Parse | src/sw/midi/midi.c:112-154 | a completed call took exactly the bytes of one well-formed message, which re-encodes to what was read; for every status but 0xF0 it completes exactly when DataLength bytes are there; System Exclusive completes exactly when a 0xF7 follows |
| MidiMessages.SysExWellFormed | src/sw/midi/midi.c:461-464 | a System Exclusive message cut at its first terminator is terminated there |
| MidiMessages.EncodeMessageOf | src/sw/midi/midi.c:112-154 | the message built from a status and its data bytes is well formed and re-encodes to exactly those bytes |
| MidiMessages.EncodeDataLength | src/sw/midi/midi.c:124-145 | every well-formed message other than System Exclusive has as many data bytes as its handler reads |
| MidiMessages.ParseEncode | src/sw/midi/midi.c:112-154 | decoding inverts encoding: a well-formed message, whatever follows it, is read back whole and takes exactly its own bytes |
| MidiMessages.MessageOfEncode | src/sw/midi/midi.c:112-154 | rebuilding a message other than System Exclusive from its own bytes gives the message back |
| MidiMessages.EncodeInjective | src/sw/midi/midi.c:112-154 | two well-formed messages with the same bytes are equal |
| MidiMessages.Effect | src/sw/midi/midi.c:174-349 | a message causes at most one register write, and only note off, note on and control change can cause one |
| MidiMessages.ControlEffect | src/sw/midi/midi.c:241-349 | controllers 41..45 write value >> 2 to amplitude register 0x200 + 4*(46 - c), controller 46 writes value * 512 to the pulse width, and every other controller writes nothing |
| MidiMessages.OnlyNotesAndWaveControlsWrite | src/sw/midi/midi.c:174-349 | a message writes at most one register, and writes one exactly for Note On, Note Off and controllers 41..46 |
| MidiMessages.NoteEffects | src/sw/midi/midi.c:184-188 | after Note On the key's register holds the velocity, after Note Off it holds 0, and every other register is unchanged |
| MidiMessages.NoteOnVelocityZeroIsNoteOff | src/sw/midi/midi.c:184-188 | Note On with velocity 0 writes what Note Off writes |
| MidiMessages.WaveAmplitudeControls | src/sw/midi/midi.c:309-337 | controllers 41..45 reach the sine, triangle, saw, ramp and pulse registers with value >> 2; a 7-bit value gives at most 31, 127 gives 31, 0 gives 0 |
| MidiMessages.PulseWidthControl | src/sw/midi/midi.c:339-343 | controller 46 reaches the pulse-width register with a multiple of 512, at most 0xFE00 for 7-bit values |
| MidiMessages.ChannelModeControllersOnlyLog | src/sw/midi/midi.c:241-302 | controllers 120..127 write no register |
| MidiMessages.PitchBendValue | src/sw/midi/midi.c:425 | the bend plus 0x2000 is msb*128 + lsb, within [-8192, 8191] for 7-bit data |
| MidiMessages.PitchBendInverse | src/sw/midi/midi.c:425 | for 7-bit data the bend determines both bytes, and it is 0 exactly at lsb 0x00, msb 0x40 |
| MidiMessages.SongPositionValue | src/sw/midi/midi.c:484 | the position is msb*128 + lsb, a 14-bit count for 7-bit data |
| MidiMessages.SongPositionInverse | src/sw/midi/midi.c:484 | for 7-bit data the position determines both bytes |
| MidiMessages.QuarterFrameFields | src/sw/midi/midi.c:473-474 | type and values are 4-bit halves that rebuild the byte |
| MidiMessages.DecodeStream | src/sw/midi/midi.c:112-154 | successive rxMidiMsg calls read at most as many messages as the stream has bytes |
| MidiMessages.DecodeStreamOfEncode | src/sw/midi/midi.c:112-154 | the bytes of a well-formed message followed by any bytes decode to that message, then the rest |
| MidiMessages.DecodeEncodeStream | src/sw/midi/midi.c:112-154 | any sequence of well-formed messages decodes back exactly from its bytes |
| MidiMessages.NoRunningStatus | src/sw/midi/midi.c:112-154 | without running status, [0x90 0x3C 0x40 0x3E 0x41] decodes to one Note On followed by 0x3E and 0x41 taken as unrecognised status bytes |
| MidiMessages.ClockByteInsideNoteOn | src/sw/midi/midi.c:179-185 | a timing clock byte inside a Note On becomes its key, and the write lands on the revision register |
| Serial.Uart.Recv | src/sw/midi/midi.c:98 | moves min(max, waiting) bytes to buf[offset..] in order, advances the cursor by that many, and leaves the rest of the buffer alone |
| Serial.ReadMidi | src/sw/midi/midi.c:90-101 | stores the next numBytes line bytes at the start of the buffer, the rest unchanged; it finishes exactly when the line has them. The same loop is src/sw/midi.c:33-42 and src/sw/main.c:176-185 |
| Midi.MidiReceiver.RxMidiMsg | src/sw/midi/midi.c:112-154 | takes the next byte (or reuses MidiBuffer[0] when the line has no byte left) and handles it as Parse and Effect say |
| Midi.MidiReceiver.Dispatch | src/sw/midi/midi.c:121-151 | the handler chosen by the command nibble takes the message's data bytes and issues exactly its writes, or blocks having written nothing |
| Midi.MidiReceiver.NoteOn | src/sw/midi/midi.h:76 | note_on(ch) handles a Note On status |
| Midi.MidiReceiver.NoteOff | src/sw/midi/midi.h:77 | note_off(ch) handles a Note Off status |
| Midi.MidiReceiver.NoteOnOff | src/sw/midi/midi.c:174-193 | reads key and velocity, then plays the key when OnOff is non-zero and stops it otherwise |
| Midi.MidiReceiver.PolyPressure | src/sw/midi/midi.c:208-218 | reads two bytes and writes no register |
| Midi.MidiReceiver.ControlWrites | src/sw/midi/midi.c:241-349 | appends exactly ControlEffect(control, value) to the synth log |
| Midi.MidiReceiver.ControlChange | src/sw/midi/midi.c:232-354 | reads controller and value and issues that controller's writes |
| Midi.MidiReceiver.ProgChange | src/sw/midi/midi.c:368-377 | reads one byte and writes no register |
| Midi.MidiReceiver.ChannelPressure | src/sw/midi/midi.c:394-403 | reads one byte and writes no register |
| Midi.MidiReceiver.PitchBend | src/sw/midi/midi.c:421-430 | reads two bytes and writes no register |
| Midi.MidiReceiver.SystemCommon | src/sw/midi/midi.c:443-550 | System Exclusive reads through 0xF7, Quarter Frame and Song Select read one byte, Song Position reads two, the rest read none; all return XST_SUCCESS and write no register |
| Midi.MidiReceiver.SystemExclusive | src/sw/midi/midi.c:461-464 | returns at once if MidiBuffer[0] is already 0xF7; otherwise takes the bytes up to and including the first 0xF7 and leaves it in MidiBuffer[0], the rest of the buffer unchanged, or drains a line that has no 0xF7 and blocks |
| Midi.MidiReceiver.SysExHandled | src/sw/midi/midi.c:443-464 | what the System Exclusive loop does is what Parse and Effect say of a 0xF0 status |
| Midi.SysExTerminated | src/sw/midi/midi.c:461-464 | the loop stops at the first terminator after its start |
| Midi.SysExUnterminated | src/sw/midi/midi.c:461-464 | with no terminator ahead the loop never ends |
| MidiLegacy.LegacyDataLength | src/sw/midi.c:57-98 | the first receiver reads what the current one reads for every status but 0xF_, and nothing for 0xF_ |
| MidiLegacy.RxMidiMsg | src/sw/midi.c:48-101 | takes one byte, reads the data of a channel voice message into the buffer, writes nothing and returns XST_SUCCESS (the copy in src/sw/main.c:118-171 is the same) |
| MidiLegacy.PollAndReceive | src/sw/main.c:76-80 | waits for a byte, then runs rxMidiMsg; on a silent line it waits forever |
| MidiLegacy.LegacyAgreesOutsideSystemMessages | src/sw/midi.c:57-98 | outside 0xF_ both receivers take the same number of data bytes |
| MidiLegacy.LegacyLeavesSystemData | src/sw/midi.c:57-98 | on a 0xF_ status with data, the first receiver leaves on the line the bytes the current one reads |
| SynthCtrl.PlayNote | src/sw/synth_ctrl/synth_ctrl.h:66 | writes the amplitude to a word-aligned offset that names the note, below 0x200 exactly for keys 0..127 |
| SynthCtrl.StopNote | src/sw/synth_ctrl/synth_ctrl.h:67 | writes 0 at playNote's offset |
| SynthCtrl.SetPitch | src/sw/synth_ctrl/synth_ctrl.h:68 | writes the word at 0x400 + 4n, inside [0x400, 0x5FC] exactly for keys 0..127 |
| SynthCtrl.SetPulseWidth | src/sw/synth_ctrl/synth_ctrl.h:69 | writes the pulse-width register |
| SynthCtrl.SetWaveAmp | src/sw/synth_ctrl/synth_ctrl.h:70 | reaches the amplitude register of the waveform exactly for PULSE_WAVE..SINE_WAVE |
| SynthCtrl.SetWavePh | src/sw/synth_ctrl/synth_ctrl.h:71 | uses the offset setWaveAmp uses for the same waveform |
| SynthCtrl.SetAttack | src/sw/synth_ctrl/synth_ctrl.h:72 | writes the attack register 0x280 |
| SynthCtrl.SetDecay | src/sw/synth_ctrl/synth_ctrl.h:73 | writes the decay register 0x284 |
| SynthCtrl.SetSustain | src/sw/synth_ctrl/synth_ctrl.h:74 | writes the sustain register 0x288 |
| SynthCtrl.SetRelease | src/sw/synth_ctrl/synth_ctrl.h:75 | writes the release register 0x28C |
| SynthCtrl.SetOutAmp | src/sw/synth_ctrl/synth_ctrl.h:76 | writes the gain-scale register |
| SynthCtrl.SetOutShift | src/sw/synth_ctrl/synth_ctrl.h:77 | writes the gain-shift register |
| SynthCtrl.SetWrapback | src/sw/synth_ctrl/synth_ctrl.h:78 | writes the wrapback register |
| SynthCtrl.RegisterAt | src/sw/synth_ctrl/synth_ctrl.h:42-57 | every mapped register sits at a word-aligned offset; a note channel and a pitch word of note n < 128 sit at 4*n from 0 and from 0x400, and the amplitude of wave 1..5 at 0x200 + 4*wave |
| SynthCtrl.NamedOffsetsDistinctWords | src/sw/synth_ctrl/synth_ctrl.h:42-57 | the named offsets are distinct multiples of 4, none below 0x200 |
| SynthCtrl.WaveAmpOffsets | src/sw/synth_ctrl/synth_ctrl.h:29-47 | the five waveform constants select OFFSET_PULSE_REG..OFFSET_SINE_REG |
| SynthCtrl.NoteChannelIffMidiKey | src/sw/synth_ctrl/synth_ctrl.h:66 | a note write reaches that note's channel exactly for keys below 128; keys 0x80, 0xF8 and 0xFF hit the pulse width, revision and wrapback registers |
| SynthCtrl.PitchWordIffMidiKey | src/sw/synth_ctrl/synth_ctrl.h:68 | a pitch write reaches that note's word exactly for keys below 128, and an unmapped offset otherwise |
| SynthCtrl.NoteAndPitchWritesDisjoint | src/sw/synth_ctrl/synth_ctrl.h:66-68 | no note write shares an offset with a pitch write |
| SynthCtrl.LastWrite | src/sw/synth_ctrl/synth_ctrl.h:64-65 | a register reads back a value some write of the log gave that very address, and reads back nothing only when no write of the log went to it |
| SynthCtrl.LastWriteAppend | src/sw/synth_ctrl/synth_ctrl.h:64 | a write changes its own register only |
| SynthCtrl.LastWriteConcat | src/sw/synth_ctrl/synth_ctrl.h:64 | a register written by the later log holds that value; any other keeps the earlier one |
| SynthCtrl.NoteWritesChangeOnlyTheirChannel | src/sw/synth_ctrl/synth_ctrl.h:66-67 | playNote sets only the note's register to the amplitude, stopNote only to 0 |
| SynthCtrl.DecodeRevision | src/sw/synth_ctrl/synth_ctrl.c:45-47 | (major << 16) \| minor rebuilds the revision word |
| SynthCtrl.DecodeDate | src/sw/synth_ctrl/synth_ctrl.c:51-54 | day, month and year rebuild the date word |
| SynthCtrl.DateYearBits | src/sw/synth_ctrl/synth_ctrl.c:52 | the year is bits 0..15 |
| SynthCtrl.DateMonthBits | src/sw/synth_ctrl/synth_ctrl.c:53 | the u8 month is bits 16..23 |
| SynthCtrl.DateDayBits | src/sw/synth_ctrl/synth_ctrl.c:54 | the day is bits 24..31 |
| SynthCtrl.DateFieldsAreBitFields | src/sw/synth_ctrl/synth_ctrl.c:51-54 | the three date fields are the GET_BITS fields 0..15, 16..23 and 24..31 |
| SynthCtrl.WrapbackVerdict | src/sw/synth_ctrl/synth_ctrl.c:67-72 | XST_FAILURE exactly when the value read back differs from 0xABCD1234 |
| SynthCtrl.WrapbackPassesOnAWorkingRegister | src/sw/synth_ctrl/synth_ctrl.c:58-74 | a register that keeps its last write passes the test |
| SynthCtrl.SynthBus.SynthWrite | src/sw/synth_ctrl/synth_ctrl.h:64 | appends the write to the log |
| SynthCtrl.SynthBus.SynthRead | src/sw/synth_ctrl/synth_ctrl.h:63 | returns what the hardware holds after the writes so far |
| SynthCtrl.SynthBus.InitSynth | src/sw/synth_ctrl/synth_ctrl.c:23-30 | writes 0x1F to 0x214, then 0x3F to 0x224, then 8 to 0x220, leaving those registers with those values, and returns XST_SUCCESS |
| SynthCtrl.SynthBus.CheckSynthCtrl | src/sw/synth_ctrl/synth_ctrl.c:36-75 | decodes revision and date, writes only the wrapback pattern, and fails exactly when the read-back differs |
| Pitch.FreqWordStep | src/sw/midi/pitch.h:18-146 | each entry is below the next |
| Pitch.FreqWordDefaults | src/sw/midi/pitch.h:18-146 | the 128 entries of the table, as the header lists them; the table carries no contract of its own, and FreqWordBounds, FreqWordIncreasing, FreqWordStep and FreqWordOctaveDoubles state what the entries satisfy |
| Pitch.FreqWordIncreasing | src/sw/midi/pitch.h:18-146 | the 128 entries are strictly increasing in the key |
| Pitch.FreqWordBounds | src/sw/midi/pitch.h:18-146 | every entry is positive and at most the last, 0x107104d9, which is below 2^29 |
| Pitch.FreqWordOctaveDoubles | src/sw/midi/pitch.h:18-146 | twelve keys up the word is twice the word, or twice plus one |
| Ssm2603Regs.PowerPreset | src/sw/ssm2603/ssm2603.h:166-175 | a preset clears exactly the power-down bits of the blocks it powers up and fits one byte |
| Ssm2603Regs.PowerPresetValues | src/sw/ssm2603/ssm2603.h:166-175 | with PM_REC_MICIN_OSC corrected to M_MIC, every preset fits in one byte and no two are equal; PM_PB_ONLY_EXT is 0x77 and PM_POWER_DOWN is 0xFF |
| Ssm2603Regs.HeaderPowerPresets | src/sw/ssm2603/ssm2603.h:166-175 | the header defines ten presets, PM_REC_MICIN_OSC as written |
| Ssm2603Regs.HeaderPowerPresetValues | src/sw/ssm2603/ssm2603.h:166-175 | as written, exactly one pair of presets is equal: PM_REC_LINEIN_OSC and PM_REC_MICIN_OSC; the corrected list differs from the header's only in the PM_REC_MICIN_OSC slot |
| Ssm2603Regs.MicInOscPresetAsWritten | src/sw/ssm2603/ssm2603.h:171 | as written, PM_REC_MICIN_OSC is 0x1A: it equals PM_REC_LINEIN_OSC, keeps the microphone down and powers line-in |
| Ssm2603Regs.MicInOscPresetCorrected | src/sw/ssm2603/ssm2603.h:171-172 | with M_MIC it is 0x19 and differs from PM_REC_MICIN_EXT only in the oscillator bit |
| Ssm2603Regs.RegistersDistinct | src/sw/ssm2603/ssm2603.h:20-47 | the register addresses are distinct and below 0x13, so reg << 1 fits a byte |
| Ssm2603Regs.ReadOrder | src/sw/ssm2603/ssm2603.c:129-248 | get_codec_config reads thirteen registers |
| Ssm2603Regs.Layout | src/sw/ssm2603/ssm2603.c:133-245 | the fields each block of get_codec_config stores from a register, with their B_ positions, W_ widths and M_ masks; the table carries no contract of its own, and LayoutValid and MasksMatchPositions state what every entry satisfies |
| Ssm2603Regs.ReadOrderDistinct | src/sw/ssm2603/ssm2603.c:129-248 | get_codec_config reads each register once |
| Ssm2603Regs.MasksMatchPositions | src/sw/ssm2603/ssm2603.h:49-164 | each M_ mask is its W_ width of ones shifted to its B_ position (one bit for a single-bit field) |
| Ssm2603Regs.LayoutValid | src/sw/ssm2603/ssm2603.h:100-149 | each field read from a register belongs to it, fits its 9 data bits and has as mask its W_ width of ones at its B_ position, and no two fields of a register share a mask bit |
| Ssm2603Regs.FieldValueIsMasked | src/sw/ssm2603/ssm2603.c:137-245 | the GET_BIT/GET_BITS value stored for a field is the register's bits under the field's M_ mask, moved down to bit 0 |
| Ssm2603Regs.FieldValueOfPlaced | src/sw/ssm2603/ssm2603.c:137-245 | a value that fits the field, placed at its B_ position, is stored back unchanged |
| Ssm2603Regs.FieldValue | src/sw/ssm2603/ssm2603.c:137-245 | a stored field is below 2^width |
| Ssm2603.WriteFrame | src/sw/ssm2603/ssm2603.c:30-33 | two bytes: the low data byte second, data bit 8 at bit 0 of the first |
| Ssm2603.FrameRoundTrip | src/sw/ssm2603/ssm2603.c:30-33 | a 7-bit register and 9-bit data are decoded back from the frame |
| Ssm2603.FrameOfParts | src/sw/ssm2603/ssm2603.c:30-33 | every two-byte frame is the frame of the register and data it names |
| Ssm2603.ReadData | src/sw/ssm2603/ssm2603.c:55 | buf[0] is the low byte and buf[1] the high byte of the value |
| Ssm2603.ReadDataOfBytes | src/sw/ssm2603/ssm2603.c:55 | every 16-bit value is assembled from its own two bytes |
| Ssm2603.StoreAt | src/sw/ssm2603/ssm2603.c:137-139 | storing a register's fields sets exactly those fields, each to its bits, and keeps the rest |
| Ssm2603.ReadDoneHolds | src/sw/ssm2603/ssm2603.c:129-248 | after a successful run every field of the j-th register holds its bits of the j-th reply |
| Ssm2603.ReadDoneKeeps | src/sw/ssm2603/ssm2603.c:129-248 | however a run ends, fields of registers it did not read keep their values |
| Ssm2603.ReadDoneBounded | src/sw/ssm2603/ssm2603.c:129-248 | a run stores only values below 2^width |
| Ssm2603.CodecConfigHolds | src/sw/ssm2603/ssm2603.c:129-248 | after get_codec_config succeeds, every field of the struct holds its bits of its own register's reply |
| Ssm2603.WriteRequestDecodes | src/sw/ssm2603/ssm2603.c:28-35 | the codec decodes the write transaction as the register and value meant |
| Ssm2603.ConfigSequence | src/sw/ssm2603/ssm2603.c:70-114 | configCodec makes six writes; ConfigSequenceOrder states their order and values |
| Ssm2603.ConfigSequenceOrder | src/sw/ssm2603/ssm2603.c:63-114 | R6 is written first with the output down and last with only the out bit changed; the active bit comes after the other registers and before that last write; every write fits the frame |
| Ssm2603.ConfigWritesDecode | src/sw/ssm2603/ssm2603.c:70-114 | after all writes succeed, the codec was sent, in order, transactions to 0x1A that decode as R6=0x77, R4=0x12, R8=0x1C, R5=0, R9=1, R6=0x67 |
| Ssm2603.Codec.I2cWriteReg | src/sw/ssm2603/ssm2603.c:35 | makes one write transaction and returns its byte count |
| Ssm2603.Codec.I2cReadReg | src/sw/ssm2603/ssm2603.c:51 | makes one read transaction and returns its count and bytes |
| Ssm2603.Codec.CodecWrite | src/sw/ssm2603/ssm2603.c:28-40 | sends the frame, and fails exactly when not 2 bytes were sent |
| Ssm2603.Codec.CodecRead | src/sw/ssm2603/ssm2603.c:46-58 | reads register reg << 1, fails exactly when not 2 bytes came back, and otherwise returns the assembled value |
| Ssm2603.Codec.ReadRegister | src/sw/ssm2603/ssm2603.c:134-139 | one block: read a register and, on success only, store its fields |
| Ssm2603.Codec.ReadRegisters | src/sw/ssm2603/ssm2603.c:129-248 | reads the registers in order, storing each one's fields, and stops with XST_FAILURE at the first failing read |
| Ssm2603.Codec.GetCodecConfig | src/sw/ssm2603/ssm2603.c:129-248 | the run over the 13 registers of get_codec_config |
| Ssm2603.Codec.WriteRegisters | src/sw/ssm2603/ssm2603.c:70-114 | makes the writes in order up to the first that fails, which ends with XST_FAILURE; the struct is untouched |
| Ssm2603.Codec.ConfigCodec | src/sw/ssm2603/ssm2603.c:63-124 | fails after the first failed write with no later transaction; otherwise the six writes are followed by get_codec_config, whose status it returns |
| Ssm2603Legacy.LegacyFrame | src/sw/ssm2603.c:70 | two bytes, the low data byte second |
| Ssm2603Legacy.LegacyFrameAgrees | src/sw/ssm2603.c:70 | for a 7-bit register and 9-bit data the old frame is the new one |
| Ssm2603Legacy.LegacyFrameLeaks | src/sw/ssm2603.c:70 | data 0x200 for R0 makes the old frame name R1, the new one R0 |
| Ssm2603Legacy.LegacyPowerUp | src/sw/ssm2603.c:21 | the first R6 value clears the bits B_PWROFF, B_OUT and B_DAC and fits a byte |
| Ssm2603Legacy.LegacySequence | src/sw/ssm2603.c:21-58 | five writes, each with a 7-bit register and 8-bit data |
| Ssm2603Legacy.LegacyPowerOrder | src/sw/ssm2603.c:21-58 | R6 is written 0x67 first and 0x66 last: the out bit is already clear at the first write, and the last changes only line-in |
| Ssm2603Legacy.LegacyOtherWrites | src/sw/ssm2603.c:31-52 | R4=0x12, R8=0x1C and R9=1 equal the current driver's writes, in the same order, and R5 is never written |
| Ssm2603Legacy.LegacyRequestsDecode | src/sw/ssm2603.c:70-71 | each transaction goes to 0x1A and decodes as the register and value meant |
| Ssm2603Legacy.LegacyCodec.I2cWrite | src/sw/ssm2603.c:71 | makes one write transaction to the instance's address and returns its status |
| Ssm2603Legacy.LegacyCodec.I2cCodecWrite | src/sw/ssm2603.c:67-75 | fails exactly when i2c_write fails |
| Ssm2603Legacy.LegacyCodec.LegacyStep | src/sw/ssm2603.c:22-23 | one write with RETURN_ON_FAILURE: it continues the run or ends it with XST_FAILURE |
| Ssm2603Legacy.LegacyCodec.ConfigCodec | src/sw/ssm2603.c:8-62 | sets the address to 0x1A, then makes the five writes in order up to the first failure; it succeeds only when all five do |

## Left out

- UART and I2C set-up are left out. That is `configMidi` in all three revisions, `XIic_SetAddress` (an assignment of the address field in the model) and the interrupt wiring. They are driver calls.
- The I2C transaction code in `src/sw/i2c.c` and `src/sw/i2c/i2c.c` is left out. It is driver calls, interrupt-set flags and retry loops with no bound. `i2c_write_reg`, `i2c_read_reg` and `i2c_write` are an oracle indexed by transaction number instead.
- The `while (1)` loop of `main` is left out, because it never terminates. `MidiLegacy.PollAndReceive` is one pass of it.
- Logging text is left out: `debug_print`, `xil_printf`, `print_codec_config`, and `readSynthCtrl`'s register dump.
- Floating point is left out: `FLOAT_TO_INT_FRAC`, `get_pitch_bend_scale` and `PITCH_BEND_RANGE`.
- `usleep(73000)` in both `configCodec`s is left out. Only the order of the writes around it is modelled.
- `calcADSRamt`, `generate_step_table` and `initADSR` are left out. They are declared with no body.
- Serial.ReadMidi: the firmware spins forever when the line has no more bytes. Here the loop stops and reports `false`, and the handlers report `Blocked`.
- Ssm2603.Codec.GetCodecConfig: the thirteen unrolled blocks are one loop over the register table `ReadOrder()` with the field table `Layout`. The order, the stores and the early return are the same.
- Ssm2603.Codec.WriteRegisters: `configCodec`'s six unrolled writes are a loop over `ConfigSequence()`, with the same order and early return.
- Utils.GetBits: defined only for a field narrower than 32 bits. For a full-width field the C shift `1U << 32` is undefined.
- Pitch.FreqWordDefaults: the table's entries are numbers, not `u32`. `Pitch.FreqWordBounds` shows that each fits in 29 bits.
- Midi.MidiReceiver.NoteOnOff: the debug line indexes `midi_note_names[key]` with an unchecked key, which is out of bounds for keys of 128 or more. The print is left out, so that out-of-bounds read is not modelled.
- Midi.MidiReceiver.PolyPressure: its log line (src/sw/midi/midi.c:215) indexes `midi_note_names[key]` with the same unchecked key. The print is left out, so that out-of-bounds read is not modelled either.
- Midi.MidiReceiver.RxMidiMsg and Serial.Uart.Ready: a receive FIFO that is empty for a moment in the middle of the stream is not modelled. `Ready` is zero only when the line has no byte left, so the single non-blocking receive of `rxMidiMsg` always gets a byte while any remain; the caller is taken to have polled first, as the loop at src/sw/main.c:78 does. The model therefore never re-dispatches a stale `MidiBuffer[0]` mid-stream, for instance a stale 0xF0 that would start a System Exclusive swallowing every message up to the next 0xF7.

## Findings

| source | as written | input that shows it | evidently intended | confidence | as-written member | corrected member |
|---|---|---|---|---|---|---|
| src/sw/ssm2603/ssm2603.h:171 | `PM_REC_MICIN_OSC` ORs in `B_MIC`, the bit position 1, which is the line-in mask | the preset evaluates to 0x1A, equal to `PM_REC_LINEIN_OSC`: the microphone stays powered down and line-in is powered up | `M_MIC`, giving 0x19, one oscillator bit away from `PM_REC_MICIN_EXT` | high; not executed | Ssm2603Regs.MicInOscPresetAsWritten | Ssm2603Regs.MicInOscPresetCorrected |
| src/sw/ssm2603.c:21-58 | the first R6 value is `~(B_PWROFF \| B_OUT \| B_DAC) & 0xFF` and the last is `pwr_mgmt & 0xFE` | the first R6 write is 0x67, which already powers the output up; the last is 0x66, which changes only the line-in bit | power the output up last: R6 = 0x77 first and 0x67 last, which the current driver does | high; not executed | Ssm2603Legacy.LegacyPowerOrder | Ssm2603.ConfigSequenceOrder |
